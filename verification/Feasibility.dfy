/** Requests that are certain to be accepted. */
module Feasibility {
  import opened Ordering
  import opened Collections
  import opened Types
  import opened Scope
  import opened Planner
  import opened Plan
  import opened Resolution
  import opened RequestNormalization
  import opened PlannerFacts
  import opened WarmupSteps
  import opened Acceptance

  // ---------------------------------------------------------------------------
  // Planning

  /** Triton needs no witness: on a known platform only a prebuilt-only policy rules it out. */
  lemma TritonIsViable(r: Request, ws: seq<Witness>)
    requires r.environment.vendor != UnknownVendor && r.backendPolicy.packaging != PrebuiltOnly
    ensures CandidateFor(r, ws, Registry(r), Triton).Some?
  {
    var triton := AllCapabilities[3];
    assert triton in Registry(r);
    var found := FindCapability(Registry(r), Triton);
    assert found.value in AllCapabilities;
    assert found.value == triton;
    TritonIsAdmissible(r, ws, triton);
  }

  lemma TritonIsAdmissible(r: Request, ws: seq<Witness>, c: Capability)
    requires c == Capability(Triton, [Nvidia, Amd], [LocalAotBuild], [])
    requires r.environment.vendor != UnknownVendor && r.backendPolicy.packaging != PrebuiltOnly
    ensures FirstAdmissible(BackendProofs(r, ws, c)).Some?
  {
    var proof := BackendProofFor(r, ws, c, LocalAotBuild);
    assert r.environment.vendor in c.vendors;
    assert Filter(c.requiredWitnesses, (k: string) => !HasWitness(ws, k)) == [];
    assert proof.verdict == Admissible;
    assert BackendProofs(r, ws, c)[0] == proof;
    assert proof in BackendProofs(r, ws, c);
  }

  lemma {:induction false} ViableUnlessEmpty(r: Request, ws: seq<Witness>, families: seq<BackendFamily>,
                                             f: BackendFamily)
    requires f in families && CandidateFor(r, ws, Registry(r), f).Some?
    ensures Viable(r, ws, Registry(r), families) != []
  {
    hide CandidateFor, Registry;
    var m := |families| - 1;
    if families[m] != f {
      ViableUnlessEmpty(r, ws, families[..m], f);
    }
  }

  predicate FollowsPrimary(region: SurveyRegion) { region.candidate && region.binding == Primary }

  /** A request with Triton among its families is planned whenever the survey has a candidate
      region that follows the primary backend. */
  lemma TritonRequestIsPlanned(host: Host, r: Request, survey: Survey, ids: Digests, region: SurveyRegion)
    requires r.environment.vendor != UnknownVendor && r.backendPolicy.packaging != PrebuiltOnly
    requires Triton in r.backendPolicy.preferredFamilies
    requires region in survey.regions && FollowsPrimary(region)
    ensures PlanFor(host, r, survey, Unscoped, ids).Success?
  {
    hide CapabilityWitnesses, Registry, Viable, CandidateFor, CompileRegions, PlanFor, CompileRegionOf;
    var ws := CapabilityWitnesses(host, r, survey);
    TritonIsViable(r, ws);
    ViableUnlessEmpty(r, ws, r.backendPolicy.preferredFamilies, Triton);
    var s := Narrowed(Selected(r, ws, Registry(r)).value, EnvelopeOf(r.level));
    RegionsAre(s, survey, Unscoped, CompileRegionOf(region, s));
    assert KeepsRegion(region, s, Unscoped);
    assert CompileRegionOf(region, s) in CompileRegions(s, survey, Unscoped);
    SettledPlans(host, r, survey, Unscoped, ids, s, CompileRegions(s, survey, Unscoped));
  }

  // ---------------------------------------------------------------------------
  // Budgets

  predicate SurveyedLocally(region: SurveyRegion) { region.rankDisposition == RankLocal }

  predicate PlannedLocally(region: CompileRegion) { region.rankDisposition == RankLocal }

  lemma MapFilterSnoc<T, R(!new)>(front: seq<T>, x: T, f: T -> R, a: R -> bool)
    ensures |Filter(Map(front + [x], f), a)| == |Filter(Map(front, f), a)| + if a(f(x)) then 1 else 0
  {
    assert Map(front + [x], f)[..|front|] == Map(front, f);
  }

  lemma FilterSnoc<T(!new)>(front: seq<T>, x: T, keep: T -> bool)
    ensures Filter(front + [x], keep) == Filter(front, keep) + if keep(x) then [x] else []
  {
    assert (front + [x])[..|front|] == front;
  }

  lemma {:induction false} FilterCount<T(!new), R(!new)>(s: seq<T>, keep: T -> bool, f: T -> R, a: R -> bool,
                                                         b: T -> bool)
    requires forall i :: 0 <= i < |s| ==> (a(f(s[i])) <==> b(s[i]))
    ensures |Filter(Map(Filter(s, keep), f), a)| <= |Filter(s, b)|
  {
    if s != [] {
      hide Map, Filter;
      var (front, x) := (s[..|s| - 1], s[|s| - 1]);
      assert s == front + [x];
      FilterCount(front, keep, f, a, b);
      FilterSnoc(front, x, keep);
      FilterSnoc(front, x, b);
      assert Filter(front, keep) + [] == Filter(front, keep);
      MapFilterSnoc(Filter(front, keep), x, f, a);
    }
  }

  /** Planning adds no region, and no rank-local one. */
  lemma RegionCount(s: Selection, survey: Survey, scope: BuildScope)
    ensures |CompileRegions(s, survey, scope)| <= |survey.regions|
    ensures |Filter(CompileRegions(s, survey, scope), PlannedLocally)| <= |Filter(survey.regions, SurveyedLocally)|
  {
    hide Sort, KeepsRegion;
    var keep := (x: SurveyRegion) => KeepsRegion(x, s, scope);
    var planned := Map(Filter(survey.regions, keep), (x: SurveyRegion) => CompileRegionOf(x, s));
    SortPermutes(planned, RegionLe);
    SameMembers(Sort(planned, RegionLe), planned);
    PermutedFilter(Sort(planned, RegionLe), planned, PlannedLocally);
    FilterCount(survey.regions, keep, (x: SurveyRegion) => CompileRegionOf(x, s), PlannedLocally, SurveyedLocally);
  }

  // ---------------------------------------------------------------------------
  // Acceptance

  /** A build without optimizations, run-time compilation or demands that need capture. */
  predicate Modest(r: Request) {
    && r.level == O0 && r.backendPolicy.jitDisposition == Forbidden
    && Meets(ShapeBoundedAot, r.backendPolicy.correctnessTarget)
    && Meets(ShapeBoundedAot, r.backendPolicy.performanceTarget)
  }

  lemma ModestIsAcceptable(r: Request, s: Selection, survey: Survey, regions: seq<CompileRegion>)
    requires Modest(r) && regions == CompileRegions(s, survey, Unscoped)
    requires |survey.regions| <= 5 && |Filter(survey.regions, SurveyedLocally)| <= 1
    ensures Acceptable(r, Unscoped, regions)
  {
    hide CompileRegions, Filter;
    RegionCount(s, survey, Unscoped);
    AllAllowed(regions);
    SameCount(regions, PlannedLocally, (x: CompileRegion) => x.rankDisposition == RankLocal);
  }

  lemma AllAllowed(regions: seq<CompileRegion>)
    ensures AllowedRegions(regions, Unscoped) == regions
  {
    KeepEvery(regions, (region: CompileRegion) => Unscoped.AllowsArtifactScope(region.name));
  }

  lemma CanonicalKeeps(raw: Request, f: BackendFamily)
    ensures f in CanonicalBody(raw).backendPolicy.preferredFamilies <==> f in raw.backendPolicy.preferredFamilies
    ensures Modest(CanonicalBody(raw)) == Modest(raw)
    ensures CanonicalBody(raw).environment.vendor == raw.environment.vendor
    ensures CanonicalBody(raw).backendPolicy.packaging == raw.backendPolicy.packaging
  {
    hide SortDedup;
    FamilyOrder();
    SortDedupMembers(raw.backendPolicy.preferredFamilies, FamilyLe);
    var families := SortDedup(raw.backendPolicy.preferredFamilies, FamilyLe);
    assert f in families <==> f in Elements(families);
  }

  /** Modest requests on a known platform, with Triton allowed and at most five regions
      surveyed, at most one of them rank-local and one following the primary backend, are
      always accepted. */
  lemma ModestBuildsAreAccepted(host: Host, raw: Request, survey: Survey, ids: Digests, region: SurveyRegion)
    requires SurveyHolds(survey) && Modest(raw)
    requires raw.environment.vendor != UnknownVendor && raw.backendPolicy.packaging != PrebuiltOnly
    requires Triton in raw.backendPolicy.preferredFamilies
    requires |survey.regions| <= 5 && |Filter(survey.regions, SurveyedLocally)| <= 1
    requires region in survey.regions && FollowsPrimary(region)
    ensures Resolve(host, raw, survey, Unscoped, ids).Success?
  {
    hide PlanFor, CanonicalBody, Acceptable, Resolve, CapabilityWitnesses, Selected, CompileRegions, ScopedShapes,
         ShapeEnvelope, ArtifactRequirements, Obligations, ManifestOf, Evidence, RewriteTrace, Registry, GuaranteeOf;
    var r := CanonicalBody(raw);
    CanonicalKeeps(raw, Triton);
    TritonRequestIsPlanned(host, r, survey, ids, region);
    var p := PlanFor(host, r, survey, Unscoped, ids).value;
    PlanIsMade(host, r, survey, Unscoped, ids);
    ModestIsAcceptable(r, p.selection, survey, p.regions);
    AcceptedExactly(host, raw, survey, Unscoped, ids, p);
  }
}
