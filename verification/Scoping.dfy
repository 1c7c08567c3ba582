/** A scope only removes: every part of a scoped plan is a part of the unscoped one, and
    what is kept is decided part by part. */
module Scoping {
  import opened Types
  import opened Scope
  import opened Planner
  import opened Plan
  import opened Resolution
  import opened PlannerFacts
  import Lowering

  predicate AllowsCompileRegion(scope: BuildScope, region: CompileRegion) {
    && scope.AllowsRegion(region.name)
    && scope.AllowsCacheNamespace(region.cacheNamespace)
    && scope.AllowsWarmupScope(region.warmupScope)
    && scope.AllowsRankDisposition(region.rankDisposition)
    && scope.AllowsFamily(region.family)
  }

  ghost predicate Named(regions: seq<CompileRegion>, name: string) {
    exists region :: region in regions && region.name == name
  }

  /** Some requirement of this class covers this scope. */
  ghost predicate Needs(requirements: seq<Requirement>, c: ArtifactClass, x: string) {
    exists q :: q in requirements && q.artifactClass == c && q.scope == x
  }

  lemma RegionsRestrict(s: Selection, survey: Survey, scope: BuildScope, region: CompileRegion)
    ensures region in CompileRegions(s, survey, scope) <==>
              region in CompileRegions(s, survey, Unscoped) && AllowsCompileRegion(scope, region)
  {
    RegionsAre(s, survey, scope, region);
    RegionsAre(s, survey, Unscoped, region);
  }

  lemma SameNameSameRegion(s: Selection, survey: Survey, scope: BuildScope, a: CompileRegion, b: CompileRegion)
    requires SurveyHolds(survey) && a.name == b.name
    requires a in CompileRegions(s, survey, scope) && b in CompileRegions(s, survey, scope)
    ensures a == b
  {
    RegionsAre(s, survey, scope, a);
    RegionsAre(s, survey, scope, b);
    var sa :| sa in survey.regions && KeepsRegion(sa, s, scope) && a == CompileRegionOf(sa, s);
    var sb :| sb in survey.regions && KeepsRegion(sb, s, scope) && b == CompileRegionOf(sb, s);
    assert RegionName(sa) == RegionName(sb);
  }

  predicate ClassOn(c: ArtifactClass, x: string, env: OptimizationEnvelope) {
    c == CompiledGraph || c == TritonBinary || (c == CudaGraphCapture && x == DECODE && env.cudaGraphs)
  }

  lemma RequirementLabels(r: Request, ws: seq<Witness>, shapes: seq<ShapeNode>, s: Selection, region: CompileRegion)
    ensures var q := GraphRequirement(r, ws, shapes, s, region);
            q.artifactClass == CompiledGraph && q.scope == region.name
    ensures var q := BinaryRequirement(r, ws, shapes, s, region);
            q.artifactClass == TritonBinary && q.scope == region.name
    ensures var q := CaptureRequirement(r, ws, shapes); q.artifactClass == CudaGraphCapture && q.scope == DECODE
  {
  }

  lemma NeededIsNamed(r: Request, ws: seq<Witness>, shapes: seq<ShapeNode>, s: Selection, regions: seq<CompileRegion>,
                      env: OptimizationEnvelope, scope: BuildScope, q: Requirement)
    requires q in ArtifactRequirements(r, ws, shapes, s, regions, env, scope)
    ensures scope.AllowsArtifactScope(q.scope) && Named(regions, q.scope) && ClassOn(q.artifactClass, q.scope, env)
  {
    RequirementsAre(r, ws, shapes, s, regions, env, scope, q);
    if region :| region in regions && scope.AllowsArtifactScope(region.name)
                 && (|| q == GraphRequirement(r, ws, shapes, s, region)
                     || q == BinaryRequirement(r, ws, shapes, s, region)) {
      RequirementLabels(r, ws, shapes, s, region);
    } else {
      assert q == CaptureRequirement(r, ws, shapes);
    }
  }

  lemma NamedIsNeeded(r: Request, ws: seq<Witness>, shapes: seq<ShapeNode>, s: Selection, regions: seq<CompileRegion>,
                      env: OptimizationEnvelope, scope: BuildScope, c: ArtifactClass, region: CompileRegion)
    requires region in regions && scope.AllowsArtifactScope(region.name) && ClassOn(c, region.name, env)
    ensures Needs(ArtifactRequirements(r, ws, shapes, s, regions, env, scope), c, region.name)
  {
    var q := if c == CompiledGraph then GraphRequirement(r, ws, shapes, s, region)
             else if c == TritonBinary then BinaryRequirement(r, ws, shapes, s, region)
             else CaptureRequirement(r, ws, shapes);
    RequirementLabels(r, ws, shapes, s, region);
    RequirementsAre(r, ws, shapes, s, regions, env, scope, q);
    assert q in ArtifactRequirements(r, ws, shapes, s, regions, env, scope);
  }

  /** The (class, scope) pairs that are required. */
  lemma PairsAre(r: Request, ws: seq<Witness>, shapes: seq<ShapeNode>, s: Selection, regions: seq<CompileRegion>,
                 env: OptimizationEnvelope, scope: BuildScope, requirements: seq<Requirement>, c: ArtifactClass,
                 x: string)
    requires requirements == ArtifactRequirements(r, ws, shapes, s, regions, env, scope)
    ensures Needs(requirements, c, x) <==> scope.AllowsArtifactScope(x) && Named(regions, x) && ClassOn(c, x, env)
  {
    if q :| q in requirements && q.artifactClass == c && q.scope == x {
      NeededIsNamed(r, ws, shapes, s, regions, env, scope, q);
    }
    if region :| region in regions && region.name == x && scope.AllowsArtifactScope(x) && ClassOn(c, x, env) {
      NamedIsNeeded(r, ws, shapes, s, regions, env, scope, c, region);
    }
  }

  lemma KeptWasOwed(t: Topology, few: seq<ShapeNode>, kept: seq<CompileRegion>, many: seq<ShapeNode>,
                    all: seq<CompileRegion>,
                    env: OptimizationEnvelope, scope: BuildScope, o: Obligation)
    requires (forall n :: n in few ==> n in many && Reaches(kept, n.plane))
    requires forall region :: region in kept ==> region in all
    requires o in Obligations(t, few, kept, env, scope)
    ensures o in Obligations(t, many, all, env, Unscoped)
    ensures Named(kept, o.regionName) && KeepsObligation(o, scope.readiness) && Reaches(kept, o.plane)
  {
    hide Obligations;
    ObligationsAre(t, few, kept, env, scope, o);
    var n, region :| Owes(t, few, kept, env, n, region, o);
    ObligationsAre(t, many, all, env, Unscoped, o);
    assert Owes(t, many, all, env, n, region, o);
  }

  lemma OwedIsKept(t: Topology, few: seq<ShapeNode>, kept: seq<CompileRegion>, many: seq<ShapeNode>,
                   all: seq<CompileRegion>,
                   env: OptimizationEnvelope, scope: BuildScope, o: Obligation)
    requires forall n :: n in many && KeepsShape(n, kept, scope) ==> n in few
    requires (forall region :: region in kept ==> region in all) && NamesTell(all)
    requires o in Obligations(t, many, all, env, Unscoped)
    requires Named(kept, o.regionName) && KeepsObligation(o, scope.readiness) && Reaches(kept, o.plane)
    ensures o in Obligations(t, few, kept, env, scope)
  {
    hide Obligations;
    ObligationsAre(t, many, all, env, Unscoped, o);
    var n, region :| Owes(t, many, all, env, n, region, o);
    var other :| other in kept && other.name == o.regionName;
    assert other == region;
    ObligationsAre(t, few, kept, env, scope, o);
    assert Owes(t, few, kept, env, n, region, o);
  }

  ghost predicate NamesTell(regions: seq<CompileRegion>) {
    forall a, b | a in regions && b in regions && a.name == b.name :: a == b
  }

  lemma RegionFacts(s: Selection, survey: Survey, scope: BuildScope)
    requires SurveyHolds(survey)
    ensures forall region :: region in CompileRegions(s, survey, scope) ==>
              region in CompileRegions(s, survey, Unscoped)
    ensures NamesTell(CompileRegions(s, survey, Unscoped))
  {
    hide CompileRegions;
    forall region | region in CompileRegions(s, survey, scope) ensures region in CompileRegions(s, survey, Unscoped) {
      RegionsRestrict(s, survey, scope, region);
    }
    forall a, b | a in CompileRegions(s, survey, Unscoped) && b in CompileRegions(s, survey, Unscoped)
                  && a.name == b.name
      ensures a == b
    {
      SameNameSameRegion(s, survey, Unscoped, a, b);
    }
  }

  lemma ShapeFacts(nodes: seq<ShapeNode>, s: Selection, survey: Survey, scope: BuildScope, n: ShapeNode)
    ensures var (kept, all) := (CompileRegions(s, survey, scope), CompileRegions(s, survey, Unscoped));
            n in ScopedShapes(nodes, kept, scope) <==>
              n in ScopedShapes(nodes, all, Unscoped) && KeepsShape(n, kept, scope)
  {
    hide CompileRegions, ScopedShapes;
    ScopedShapesAre(nodes, CompileRegions(s, survey, scope), scope, n);
    ScopedShapesAre(nodes, CompileRegions(s, survey, Unscoped), Unscoped, n);
    if Reaches(CompileRegions(s, survey, scope), n.plane) {
      ReachesMore(s, survey, scope, n.plane);
    }
  }

  lemma ReachesMore(s: Selection, survey: Survey, scope: BuildScope, plane: CoveragePlane)
    requires Reaches(CompileRegions(s, survey, scope), plane)
    ensures Reaches(CompileRegions(s, survey, Unscoped), plane)
  {
    var region :| region in CompileRegions(s, survey, scope) && plane in region.planes;
    RegionsRestrict(s, survey, scope, region);
  }

  /** Whenever a scoped request can be planned, so can the unscoped one. */
  lemma UnscopedPlans(host: Host, r: Request, survey: Survey, scope: BuildScope, ids: Digests)
    requires PlanFor(host, r, survey, scope, ids).Success?
    ensures PlanFor(host, r, survey, Unscoped, ids).Success?
  {
    hide PlanFor, AssemblePlan, CompileRegions, CapabilityWitnesses, Selected, Registry;
    var s, kept := PlanIsAssembled(host, r, survey, scope, ids);
    var all := CompileRegions(s, survey, Unscoped);
    RegionsRestrict(s, survey, scope, kept[0]);
    assert kept[0] in all;
    SettledPlans(host, r, survey, Unscoped, ids, s, all);
  }

  /** Two plans of one request, one of them scoped. */
  ghost predicate Scopes(host: Host, r: Request, survey: Survey, scope: BuildScope, ids: Digests, part: BuildPlan,
                         whole: BuildPlan) {
    MadeFrom(host, r, survey, scope, ids, part) && MadeFrom(host, r, survey, Unscoped, ids, whole)
  }

  lemma ScopedRegions(host: Host, r: Request, survey: Survey, scope: BuildScope, ids: Digests,
                      part: BuildPlan, whole: BuildPlan, region: CompileRegion)
    requires Scopes(host, r, survey, scope, ids, part, whole)
    ensures part.selection == whole.selection
    ensures region in part.regions <==> region in whole.regions && AllowsCompileRegion(scope, region)
  {
    hide CapabilityWitnesses, Selected, CompileRegions, ScopedShapes, ShapeEnvelope, ArtifactRequirements, Obligations,
         Lowering.GraphOf, ManifestOf, Evidence, RewriteTrace, Registry;
    RegionsRestrict(part.selection, survey, scope, region);
  }

  lemma ScopedArtifacts(host: Host, r: Request, survey: Survey, scope: BuildScope, ids: Digests,
                        part: BuildPlan, whole: BuildPlan, c: ArtifactClass, x: string)
    requires Scopes(host, r, survey, scope, ids, part, whole)
    ensures Needs(part.requirements, c, x) <==>
              Needs(whole.requirements, c, x) && scope.AllowsArtifactScope(x) && Named(part.regions, x)
  {
    hide CapabilityWitnesses, Selected, CompileRegions, ScopedShapes, ShapeEnvelope, ArtifactRequirements, Obligations,
         Lowering.GraphOf, ManifestOf, Evidence, RewriteTrace, Registry;
    PairsAre(r, part.witnesses, part.shapes, part.selection, part.regions, part.envelope, scope, part.requirements, c,
             x);
    PairsAre(r, whole.witnesses, whole.shapes, whole.selection, whole.regions, whole.envelope, Unscoped,
             whole.requirements, c, x);
    if region :| region in part.regions && region.name == x {
      RegionsRestrict(part.selection, survey, scope, region);
    }
  }

  lemma ScopedObligations(host: Host, r: Request, survey: Survey, scope: BuildScope, ids: Digests,
                          part: BuildPlan, whole: BuildPlan, o: Obligation)
    requires SurveyHolds(survey) && Scopes(host, r, survey, scope, ids, part, whole)
    ensures o in part.obligations <==>
              && o in whole.obligations && Named(part.regions, o.regionName)
              && KeepsObligation(o, scope.readiness) && Reaches(part.regions, o.plane)
  {
    hide CapabilityWitnesses, Selected, CompileRegions, ScopedShapes, ShapeEnvelope, ArtifactRequirements, Obligations,
         Lowering.GraphOf, ManifestOf, Evidence, RewriteTrace, Registry;
    RegionFacts(part.selection, survey, scope);
    forall n ensures n in part.shapes <==> n in whole.shapes && KeepsShape(n, part.regions, scope) {
      ShapeFacts(ShapeEnvelope(r, part.selection, part.envelope), part.selection, survey, scope, n);
    }
    if o in part.obligations {
      KeptWasOwed(r.topology, part.shapes, part.regions, whole.shapes, whole.regions, part.envelope, scope, o);
    }
    if o in whole.obligations && Named(part.regions, o.regionName)
       && KeepsObligation(o, scope.readiness) && Reaches(part.regions, o.plane)
    {
      OwedIsKept(r.topology, part.shapes, part.regions, whole.shapes, whole.regions, part.envelope, scope, o);
    }
  }
}
