/** Serving builds under the adapter's survey: they are accepted, and the artifacts they compile
    first are rank-local. */
module ServingBuild {
  import opened Ordering
  import opened Collections
  import opened Types
  import opened Scope
  import opened Accelerator
  import opened Planner
  import opened PlannerFacts
  import opened Plan
  import opened Resolution
  import opened RequestNormalization
  import opened Acceptance
  import opened Feasibility
  import opened NodeNames
  import opened WarmupSteps
  import opened Adapter
  import opened Cases
  import opened PlannedOutcome
  import opened PlannedRaces
  import Lowering

  // ---------------------------------------------------------------------------
  // FlashInfer prebuilt, with CUDA graphs beside it

  /** A build at O2 with hot shapes for performance and capture shapes, within the warmup
      budget, that asks for no more than such a build can guarantee. */
  predicate Affordable(r: Request) {
    && r.level == O2 && r.backendPolicy.jitDisposition == Forbidden
    && Meets(ShapeBoundedAot, r.backendPolicy.correctnessTarget)
    && Meets(ShapeBoundedAot, r.backendPolicy.performanceTarget)
    && (forall p | p in r.shapePolicy.hotShapes :: p.plane == Performance)
    && (forall p | p in r.shapePolicy.cudaGraphShapes :: p.plane == CudaGraph)
    && 3 * |r.shapePolicy.hotShapes| + |r.shapePolicy.cudaGraphShapes| <= 11
  }

  /** An affordable build for an Nvidia architecture that captures graphs, on a host that has
      FlashInfer prebuilt. */
  predicate Serving(host: Host, r: Request) {
    && r.environment.vendor == Nvidia && AnyArch(r.environment.gpuArches, SupportsGraphs) && host.flashinferPrebuilt
    && FlashInfer in r.backendPolicy.preferredFamilies && CudaGraphs in r.backendPolicy.preferredFamilies
    && r.backendPolicy.packaging != PrebuiltOnly && Affordable(r)
  }

  lemma PrebuiltWitness(host: Host, r: Request, survey: Survey)
    requires host.flashinferPrebuilt
    ensures HasWitness(CapabilityWitnesses(host, r, survey), "flashinfer.prebuilt")
  {
    hide Sort, PlatformWitnesses, NvidiaWitnesses;
    var w := Witness("flashinfer.prebuilt", "available");
    var unsorted := PlatformWitnesses(host, r.environment, survey) + When(host.flashinferPrebuilt, w)
                    + (if r.environment.vendor == Nvidia then NvidiaWitnesses(host, r.environment) else [])
                    + Map(survey.diagnostics, DiagnosticWitness);
    assert When(host.flashinferPrebuilt, w)[0] == w;
    assert w in unsorted;
    SortPermutes(unsorted, WitnessLe);
    SameMembers(Sort(unsorted, WitnessLe), unsorted);
    assert w in CapabilityWitnesses(host, r, survey);
  }

  lemma PrebuiltIsFirst(r: Request, ws: seq<Witness>, c: Capability)
    requires c == Capability(FlashInfer, [Nvidia], [VendorPrebuilt, LocalSourceBuild], ["flashinfer.prebuilt"])
    requires r.environment.vendor == Nvidia && HasWitness(ws, "flashinfer.prebuilt")
    ensures FirstAdmissible(BackendProofs(r, ws, c)).Some?
    ensures FirstAdmissible(BackendProofs(r, ws, c)).value.acquisition == VendorPrebuilt
  {
    var proof := BackendProofFor(r, ws, c, VendorPrebuilt);
    assert c.vendors[0] == Nvidia;
    FilterNone(c.requiredWitnesses, (k: string) => !HasWitness(ws, k));
    assert proof.verdict == Admissible;
    assert BackendProofs(r, ws, c)[0] == proof;
  }

  lemma PrebuiltIsViable(r: Request, ws: seq<Witness>)
    requires r.environment.vendor == Nvidia && HasWitness(ws, "flashinfer.prebuilt")
    ensures var c := CandidateFor(r, ws, Registry(r), FlashInfer);
            c.Some? && c.value.family == FlashInfer && c.value.acquisition == VendorPrebuilt
  {
    var prebuilt := AllCapabilities[2];
    assert prebuilt in Registry(r);
    var found := FindCapability(Registry(r), FlashInfer);
    assert found.value in AllCapabilities;
    assert found.value == prebuilt;
    PrebuiltIsFirst(r, ws, prebuilt);
  }

  /** CUDA graphs are captured locally, and AOTInductor's artifacts come from upstream. */
  ghost predicate UsualWays(candidates: seq<Candidate>) {
    forall c :: c in candidates ==>
                  && (c.family == CudaGraphs ==> c.acquisition == LocalAotBuild)
                  && (c.family == AotInductor ==> c.acquisition == UpstreamCacheBundle)
  }

  /** The artifacts of the primary backend are fetched, and CUDA graphs are selected beside it. */
  ghost predicate ServingSelection(s: Selection) {
    && Lowering.IsTransferred(s.primary.acquisition) && UsualWays(s.All())
    && exists c :: c in s.secondary && c.family == CudaGraphs
  }

  lemma InductorIs(r: Request, ws: seq<Witness>)
    requires CandidateFor(r, ws, Registry(r), AotInductor).Some?
    ensures CandidateFor(r, ws, Registry(r), AotInductor).value.acquisition == UpstreamCacheBundle
  {
    hide CandidateFor, Registry;
    forall c | c in AllCapabilities && c.family == AotInductor ensures c.acquisitions == [UpstreamCacheBundle] {
      WaysOf(c);
    }
    WayOf(r, ws, AotInductor, UpstreamCacheBundle);
  }

  lemma {:induction false} ViableAre(r: Request, ws: seq<Witness>, families: seq<BackendFamily>, c: Candidate)
    ensures c in Viable(r, ws, Registry(r), families) <==>
              exists f :: f in families && CandidateFor(r, ws, Registry(r), f) == Some(c)
  {
    hide CandidateFor, Registry;
    if families != [] {
      var m := |families| - 1;
      assert families == families[..m] + [families[m]];
      ViableAre(r, ws, families[..m], c);
    }
  }

  lemma {:induction false} FirstViable(r: Request, ws: seq<Witness>, families: seq<BackendFamily>)
    requires families != [] && CandidateFor(r, ws, Registry(r), families[0]).Some?
    ensures var viable := Viable(r, ws, Registry(r), families);
            viable != [] && viable[0] == CandidateFor(r, ws, Registry(r), families[0]).value
  {
    hide CandidateFor, Registry;
    var m := |families| - 1;
    if m == 0 {
      assert families[..0] == [];
    } else {
      FirstViable(r, ws, families[..m]);
    }
  }

  lemma FamilyOf(r: Request, ws: seq<Witness>, f: BackendFamily)
    requires CandidateFor(r, ws, Registry(r), f).Some?
    ensures CandidateFor(r, ws, Registry(r), f).value.family == f
  {
  }

  lemma ViableWays(r: Request, ws: seq<Witness>, families: seq<BackendFamily>)
    ensures UsualWays(Viable(r, ws, Registry(r), families))
  {
    hide Registry, CandidateFor, Viable;
    forall c | c in Viable(r, ws, Registry(r), families)
      ensures c.family == CudaGraphs ==> c.acquisition == LocalAotBuild
      ensures c.family == AotInductor ==> c.acquisition == UpstreamCacheBundle
    {
      ViableAre(r, ws, families, c);
      var f :| f in families && CandidateFor(r, ws, Registry(r), f) == Some(c);
      FamilyOf(r, ws, f);
      if f == AotInductor { InductorIs(r, ws); }
      if f == CudaGraphs { CandidateIs(r, ws); }
    }
  }

  lemma ServingIsSelected(host: Host, r: Request, survey: Survey)
    requires Serving(host, r) && r.backendPolicy.preferredFamilies[0] == FlashInfer
    ensures var selected := Selected(r, CapabilityWitnesses(host, r, survey), Registry(r));
            selected.Success? && ServingSelection(selected.value)
  {
    hide CapabilityWitnesses, Registry, CandidateFor, Viable;
    var (ws, families) := (CapabilityWitnesses(host, r, survey), r.backendPolicy.preferredFamilies);
    PrebuiltWitness(host, r, survey);
    GraphWitness(host, r, survey);
    PrebuiltIsViable(r, ws);
    GraphsAreViable(r, ws);
    CandidateIs(r, ws);
    FirstViable(r, ws, families);
    var viable := Viable(r, ws, Registry(r), families);
    var graphs := CandidateFor(r, ws, Registry(r), CudaGraphs).value;
    ViableAre(r, ws, families, graphs);
    assert graphs in viable && graphs != viable[0];
    ViableWays(r, ws, families);
    assert Selection(viable[0], viable[1..]).All() == viable;
  }

  lemma {:induction false} SecondaryIs(family: BackendFamily, candidates: seq<Candidate>, a: Acquisition)
    requires exists c :: c in candidates && c.family == family
    requires forall c :: c in candidates && c.family == family ==> c.acquisition == a
    ensures SecondaryAcquisition(family, candidates) == a
  {
    if candidates[0].family != family {
      var c :| c in candidates && c.family == family;
      assert c in candidates[1..];
      SecondaryIs(family, candidates[1..], a);
    } else {
      assert candidates[0] in candidates;
    }
  }

  /** Every region but decode attention takes artifacts that were built elsewhere. */
  lemma ServingRegions(s: Selection, region: CompileRegion)
    requires ServingSelection(s) && region in CompileRegions(s, AdapterSurvey, Unscoped)
    ensures region == CompileRegionOf(Decode, s) || Lowering.IsTransferred(RegionAcquisition(region.family, s))
  {
    hide CompileRegions;
    RegionsAre(s, AdapterSurvey, Unscoped, region);
    var sr :| sr in AdapterSurvey.regions && KeepsRegion(sr, s, Unscoped) && region == CompileRegionOf(sr, s);
    RegionsAreFive(sr);
    if sr == Experts && s.primary.family != AotInductor {
      SecondaryWays(s);
      SecondaryIs(AotInductor, s.secondary, UpstreamCacheBundle);
    }
  }

  lemma SecondaryWays(s: Selection)
    requires UsualWays(s.All())
    ensures UsualWays(s.secondary) && UsualWays([s.primary])
  {
    assert forall c :: c in s.secondary ==> c in s.All();
    assert s.All()[0] == s.primary;
  }

  lemma DecodeIsServed(s: Selection)
    requires ServingSelection(s)
    ensures CompileRegionOf(Decode, s) in CompileRegions(s, AdapterSurvey, Unscoped)
    ensures RegionAcquisition(CudaGraphs, s) == LocalAotBuild
  {
    hide CompileRegions, CompileRegionOf;
    RegionsAreFive(Decode);
    assert KeepsRegion(Decode, s, Unscoped);
    RegionsAre(s, AdapterSurvey, Unscoped, CompileRegionOf(Decode, s));
    SecondaryWays(s);
    assert s.primary.family != CudaGraphs by { assert s.primary in [s.primary]; }
    SecondaryIs(CudaGraphs, s.secondary, LocalAotBuild);
  }

  // ---------------------------------------------------------------------------
  // Its budgets

  predicate SurveyedFor(plane: CoveragePlane, region: SurveyRegion) { plane in region.planes }

  lemma {:induction false} FewOfFive<T(!new)>(s: seq<T>, keep: T -> bool)
    requires |s| == 5
    ensures |Filter(s, keep)| ==
              (if keep(s[0]) then 1 else 0) + (if keep(s[1]) then 1 else 0) + (if keep(s[2]) then 1 else 0)
              + (if keep(s[3]) then 1 else 0) + (if keep(s[4]) then 1 else 0)
  {
    hide Filter;
    FilterSnoc(s[..4], s[4], keep);
    FilterSnoc(s[..3], s[3], keep);
    FilterSnoc(s[..2], s[2], keep);
    FilterSnoc(s[..1], s[1], keep);
    FilterSnoc([], s[0], keep);
    assert s == s[..4] + [s[4]] && s[..4] == s[..3] + [s[3]] && s[..3] == s[..2] + [s[2]] && s[..2] == s[..1] + [s[1]]
           && s[..1] == [] + [s[0]];
  }

  /** Three regions have the performance plane, one the CUDA-graph plane. */
  lemma SurveyedPlanes()
    ensures |Filter(Regions, (x: SurveyRegion) => SurveyedFor(Performance, x))| == 3
    ensures |Filter(Regions, (x: SurveyRegion) => SurveyedFor(CudaGraph, x))| == 1
  {
    hide Filter;
    FewOfFive(Regions, (x: SurveyRegion) => SurveyedFor(Performance, x));
    FewOfFive(Regions, (x: SurveyRegion) => SurveyedFor(CudaGraph, x));
    assert TransformerBlocks.planes[1] == Performance && Decode.planes[1] == Performance
           && Prefill.planes[1] == Performance;
    assert Decode.planes[2] == CudaGraph;
  }

  lemma PlaneCount(s: Selection, plane: CoveragePlane)
    ensures OnPlane(CompileRegions(s, AdapterSurvey, Unscoped), plane) <=
              |Filter(Regions, (x: SurveyRegion) => SurveyedFor(plane, x))|
  {
    hide Sort, KeepsRegion, Filter;
    var keep := (x: SurveyRegion) => KeepsRegion(x, s, Unscoped);
    var (make, on) := ((x: SurveyRegion) => CompileRegionOf(x, s), (x: CompileRegion) => plane in x.planes);
    var planned := Map(Filter(Regions, keep), make);
    SortPermutes(planned, RegionLe);
    PermutedFilter(Sort(planned, RegionLe), planned, on);
    FilterCount(Regions, keep, make, on, (x: SurveyRegion) => SurveyedFor(plane, x));
  }

  lemma {:induction false} SumBounded<T>(s: seq<T>, f: T -> nat, k: nat)
    requires forall x :: x in s ==> f(x) <= k
    ensures Sum(s, f) <= Scaled(k, |s|)
  {
    if s != [] {
      hide Scaled;
      assert s[|s| - 1] in s;
      SumBounded(s[..|s| - 1], f, k);
      ScaledNext(k, |s| - 1);
    } else {
      assert Scaled(k, 0) == 0;
    }
  }

  lemma PointsAreFew(r: Request, s: Selection, regions: seq<CompileRegion>, p: ShapePoint, k: nat)
    requires regions == CompileRegions(s, AdapterSurvey, Unscoped) && p.plane != Correctness
    requires |Filter(Regions, (x: SurveyRegion) => SurveyedFor(p.plane, x))| <= k
    ensures PointSteps(EnvelopeOf(r.level), None, regions, p) <= k
  {
    hide CompileRegions, Filter, EnvelopeOf;
    PlaneCount(s, p.plane);
    var env := EnvelopeOf(r.level);
    if && Reaches(regions, p.plane) && (p.plane == Performance ==> env.performanceWarmup)
       && (p.plane == CudaGraph ==> env.cudaGraphs) {
      SameCount(regions, (x: CompileRegion) => WarmsPoint(env, regions, x, p),
                (x: CompileRegion) => p.plane in x.planes);
    } else {
      FilterNone(regions, (x: CompileRegion) => WarmsPoint(env, regions, x, p));
    }
  }

  lemma AffordableSteps(r: Request, s: Selection, regions: seq<CompileRegion>)
    requires Affordable(r) && regions == CompileRegions(s, AdapterSurvey, Unscoped)
    ensures StepsOwed(r, regions, None) <= 32
  {
    hide CompileRegions, Filter, PointSteps, Sum;
    var points := (p: ShapePoint) => PointSteps(EnvelopeOf(r.level), None, regions, p);
    SurveyedPlanes();
    RegionCount(s, AdapterSurvey, Unscoped);
    PlaneCount(s, Performance);
    forall p | p in r.shapePolicy.hotShapes ensures points(p) <= 3 {
      PointsAreFew(r, s, regions, p, 3);
    }
    forall p | p in r.shapePolicy.cudaGraphShapes ensures points(p) <= 1 {
      PointsAreFew(r, s, regions, p, 1);
    }
    SumBounded(r.shapePolicy.hotShapes, points, 3);
    SumBounded(r.shapePolicy.cudaGraphShapes, points, 1);
  }

  lemma AffordableHasNoClash(r: Request, regions: seq<CompileRegion>)
    requires Affordable(r)
    ensures !Clashes(r, regions, None)
  {
  }

  lemma AffordableIsAcceptable(r: Request, s: Selection, regions: seq<CompileRegion>)
    requires Affordable(r) && regions == CompileRegions(s, AdapterSurvey, Unscoped)
    ensures Acceptable(r, Unscoped, regions)
  {
    hide CompileRegions, Filter, StepsOwed, Clashes;
    RegionCount(s, AdapterSurvey, Unscoped);
    OneRankLocal(SurveyedLocally);
    AllAllowed(regions);
    SameCount(regions, PlannedLocally, (x: CompileRegion) => x.rankDisposition == RankLocal);
    AffordableSteps(r, s, regions);
    AffordableHasNoClash(r, regions);
  }

  // ---------------------------------------------------------------------------
  // Its canonical form

  lemma {:induction false} DedupShortens<T>(s: seq<T>)
    ensures |Dedup(s)| <= |s|
  {
    if |s| >= 2 {
      DedupShortens(s[1..]);
    }
  }

  lemma CanonicalPoints(points: seq<ShapePoint>)
    ensures |SortDedup(points, ShapeLe)| <= |points|
    ensures forall p :: p in SortDedup(points, ShapeLe) <==> p in points
  {
    hide Sort, Dedup;
    ShapeOrder();
    SortPermutes(points, ShapeLe);
    SameMembers(Sort(points, ShapeLe), points);
    DedupShortens(Sort(points, ShapeLe));
    SortDedupMembers(points, ShapeLe);
    forall p ensures p in SortDedup(points, ShapeLe) <==> p in points {
      assert p in points <==> p in Elements(points);
      assert p in SortDedup(points, ShapeLe) <==> p in Elements(SortDedup(points, ShapeLe));
    }
  }

  lemma CanonicalFamilies(families: seq<BackendFamily>)
    requires FlashInfer in families
    ensures var sorted := SortDedup(families, FamilyLe);
            && sorted != [] && sorted[0] == FlashInfer && (CudaGraphs in families ==> CudaGraphs in sorted)
  {
    hide SortDedup;
    var sorted := SortDedup(families, FamilyLe);
    FamilyOrder();
    SortDedupMembers(families, FamilyLe);
    assert FlashInfer in Elements(families);
    assert FlashInfer in Elements(sorted);
    var i :| 0 <= i < |sorted| && sorted[i] == FlashInfer;
    assert sorted[0] == FlashInfer;
    assert CudaGraphs in families ==> CudaGraphs in Elements(families);
  }

  lemma CanonicalStaysAffordable(raw: Request)
    requires Affordable(raw)
    ensures Affordable(CanonicalBody(raw))
  {
    hide SortDedup, CanonicalLayers, CanonicalKvLayout;
    CanonicalPoints(raw.shapePolicy.hotShapes);
    CanonicalPoints(raw.shapePolicy.cudaGraphShapes);
  }

  lemma CanonicalStaysServing(host: Host, raw: Request)
    requires Serving(host, raw)
    ensures Serving(host, CanonicalBody(raw)) && CanonicalBody(raw).backendPolicy.preferredFamilies[0] == FlashInfer
    ensures CanonicalBody(raw).environment.driverVersion == raw.environment.driverVersion
  {
    hide SortDedup, CanonicalLayers, CanonicalKvLayout, Affordable;
    CanonicalFamilies(raw.backendPolicy.preferredFamilies);
    CanonicalStaysAffordable(raw);
    CanonicalArches(raw.environment.gpuArches);
  }

  lemma CanonicalArches(arches: seq<string>)
    requires AnyArch(arches, SupportsGraphs)
    ensures AnyArch(SortDedup(arches, StringLe), SupportsGraphs)
  {
    hide SortDedup;
    StringOrder();
    SortDedupMembers(arches, StringLe);
    var sorted := SortDedup(arches, StringLe);
    var a :| a in arches && Supported(a, SupportsGraphs);
    assert a in Elements(arches) && a in Elements(sorted);
    assert a in sorted;
  }

  // ---------------------------------------------------------------------------
  // Its decode artifacts

  /** The plan of a serving build: its two decode artifacts, alone in the wave of what is
      compiled first, and built for the request's environment. */
  ghost predicate ServingPlan(r: Request, p: BuildPlan, q: Requirement, q': Requirement) {
    && q in p.requirements && q' in p.requirements
    && q.artifactClass == CompiledGraph && q'.artifactClass == TritonBinary && q.scope == q'.scope == DECODE
    && q.acquisition == q'.acquisition == LocalAotBuild
    && q.proof.targetAbi == AbiFingerprint(r.environment, r.topology)
    && ParallelWave(p.graph.nodes, (1, CompileQueue))
  }

  /** What a serving build compiles itself, apart from captures, is rank-local. */
  lemma ServingCompiles(r: Request, ws: seq<Witness>, shapes: seq<ShapeNode>, s: Selection, regions: seq<CompileRegion>,
                        q: Requirement)
    requires ServingSelection(s) && regions == CompileRegions(s, AdapterSurvey, Unscoped)
    requires q in ArtifactRequirements(r, ws, shapes, s, regions, EnvelopeOf(r.level), Unscoped)
    requires q.artifactClass != CudaGraphCapture && !Lowering.IsTransferred(q.acquisition)
    ensures q.rankDisposition == RankLocal
  {
    hide CompileRegions, ArtifactRequirements, ArtifactProofOf, EnvelopeOf;
    RequirementsAre(r, ws, shapes, s, regions, EnvelopeOf(r.level), Unscoped, q);
    var region :| region in regions
                  && (|| q == GraphRequirement(r, ws, shapes, s, region)
                      || q == BinaryRequirement(r, ws, shapes, s, region));
    ServingRegions(s, region);
  }

  lemma ServingWave(r: Request, ws: seq<Witness>, shapes: seq<ShapeNode>, s: Selection, regions: seq<CompileRegion>,
                    requirements: seq<Requirement>, obligations: seq<Obligation>)
    requires ServingSelection(s) && regions == CompileRegions(s, AdapterSurvey, Unscoped)
    requires requirements == ArtifactRequirements(r, ws, shapes, s, regions, EnvelopeOf(r.level), Unscoped)
    ensures ParallelWave(Lowering.NodesOf(r.topology, requirements, obligations), (1, CompileQueue))
  {
    hide CompileRegions, ArtifactRequirements, EnvelopeOf, Lowering.NodesOf;
    var nodes := Lowering.NodesOf(r.topology, requirements, obligations);
    forall n | n in nodes && Lowering.KeyOf(n) == (1, CompileQueue) ensures n.discipline == ParallelPerRank {
      Lowering.NodesAre(r.topology, requirements, obligations, n);
      var q :| q in requirements && n == Lowering.ArtifactNode(q);
      ServingCompiles(r, ws, shapes, s, regions, q);
    }
  }

  lemma ServingIsPlanned(host: Host, r: Request, ids: Digests) returns (p: BuildPlan, q: Requirement, q': Requirement)
    requires Serving(host, r) && r.backendPolicy.preferredFamilies[0] == FlashInfer
    ensures PlanFor(host, r, AdapterSurvey, Unscoped, ids) == Success(p)
    ensures MadeFrom(host, r, AdapterSurvey, Unscoped, ids, p)
    ensures ServingPlan(r, p, q, q')
  {
    hide CapabilityWitnesses, Registry, CompileRegions, PlanFor, Selected, MadeFrom, Serving;
    ServingIsSelected(host, r, AdapterSurvey);
    var s := Selected(r, CapabilityWitnesses(host, r, AdapterSurvey), Registry(r)).value;
    assert Narrowed(s, EnvelopeOf(r.level)) == s by { ServingIsO2(host, r); }
    DecodeIsServed(s);
    SettledPlans(host, r, AdapterSurvey, Unscoped, ids, s, CompileRegions(s, AdapterSurvey, Unscoped));
    p := PlanFor(host, r, AdapterSurvey, Unscoped, ids).value;
    PlanIsMade(host, r, AdapterSurvey, Unscoped, ids);
    MadeSelection(host, r, AdapterSurvey, Unscoped, ids, p);
    q, q' := ServingParts(host, r, ids, p);
  }

  lemma ServingIsO2(host: Host, r: Request)
    requires Serving(host, r)
    ensures r.level == O2
  {
  }

  lemma ServingParts(host: Host, r: Request, ids: Digests, p: BuildPlan) returns (q: Requirement, q': Requirement)
    requires MadeFrom(host, r, AdapterSurvey, Unscoped, ids, p) && ServingSelection(p.selection)
    ensures ServingPlan(r, p, q, q')
  {
    hide CapabilityWitnesses, Registry, CompileRegions, Selected, ScopedShapes, ShapeEnvelope, ArtifactRequirements,
         Obligations, ManifestOf, Evidence, RewriteTrace, GuaranteeOf, EnvelopeOf, ParallelWave, Lowering.NodesOf,
         Lowering.WavesOf;
    var (s, region) := (p.selection, CompileRegionOf(Decode, p.selection));
    DecodeIsServed(s);
    q := GraphRequirement(r, p.witnesses, p.shapes, s, region);
    q' := BinaryRequirement(r, p.witnesses, p.shapes, s, region);
    RequirementsAre(r, p.witnesses, p.shapes, s, p.regions, p.envelope, Unscoped, q);
    RequirementsAre(r, p.witnesses, p.shapes, s, p.regions, p.envelope, Unscoped, q');
    ServingWave(r, p.witnesses, p.shapes, s, p.regions, p.requirements, p.obligations);
  }

  lemma ServingIsResolved(host: Host, raw: Request, ids: Digests)
    returns (p: BuildPlan, q: Requirement, q': Requirement)
    requires Serving(host, raw)
    ensures PlanFor(host, CanonicalBody(raw), AdapterSurvey, Unscoped, ids) == Success(p)
    ensures ServingPlan(CanonicalBody(raw), p, q, q')
    ensures SurveyHolds(AdapterSurvey) && Resolve(host, raw, AdapterSurvey, Unscoped, ids).Success?
  {
    hide Resolve, SurveyHolds, PlanFor, CanonicalBody, MadeFrom, Acceptable, ServingPlan, CompileRegions;
    AdapterSurveyHolds();
    var r := CanonicalBody(raw);
    CanonicalStaysServing(host, raw);
    p, q, q' := ServingIsPlanned(host, r, ids);
    MadeSelection(host, r, AdapterSurvey, Unscoped, ids, p);
    AffordableIsAcceptable(r, p.selection, p.regions);
    AcceptedExactly(host, raw, AdapterSurvey, Unscoped, ids, p);
  }

  /** A serving build is accepted. */
  lemma ServingIsAccepted(host: Host, raw: Request, ids: Digests) returns (o: Outcome, q: Requirement, q': Requirement)
    requires Serving(host, raw)
    ensures o.survey == AdapterSurvey && WellPlanned(o) && ServingPlan(CanonicalBody(raw), o.plan, q, q')
    ensures SurveyHolds(AdapterSurvey) && Resolve(host, raw, AdapterSurvey, Unscoped, ids) == Success(o)
  {
    hide Resolve, SurveyHolds, PlanFor, CanonicalBody, Validate, WellPlanned, Serving, ServingPlan;
    var p;
    p, q, q' := ServingIsResolved(host, raw, ids);
    o := Resolve(host, raw, AdapterSurvey, Unscoped, ids).value;
    var accepted := AcceptedPlan(host, raw, AdapterSurvey, Unscoped, ids);
    AcceptedIsWellPlanned(host, raw, AdapterSurvey, Unscoped, ids);
  }
}
