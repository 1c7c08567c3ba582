/** Which plans under the adapter's survey have executions that fail. */
module AdapterRaces {
  import opened Ordering
  import opened Collections
  import opened Types
  import opened Scope
  import opened Accelerator
  import opened Planner
  import opened PlannerFacts
  import opened Plan
  import opened Resolution
  import opened RequestNormalization
  import opened WarmupCoverage
  import opened NodeNames
  import opened WarmupSteps
  import opened Acceptance
  import opened Feasibility
  import opened Adapter
  import opened Cases
  import opened ServingBuild
  import opened Application
  import opened ArtifactCache
  import opened CacheRace
  import opened Execution
  import opened PlannedOutcome
  import opened PlannedCache
  import opened PlannedExecution
  import opened PlannedRaces
  import opened RunCases
  import Lowering

  /** CUDA graphs are selected, and the artifacts of the primary backend are fetched, not
      compiled: decode attention is compiled alone. */
  predicate CompilesDecodeAlone(s: Selection) {
    Selects(s, CudaGraphs) && Lowering.IsTransferred(s.primary.acquisition)
  }

  lemma MadeWays(host: Host, r: Request, ids: Digests, p: BuildPlan)
    requires MadeFrom(host, r, AdapterSurvey, Unscoped, ids, p)
    ensures UsualWays(p.selection.All())
  {
    hide CapabilityWitnesses, Registry, CompileRegions, MadeFrom, Viable;
    MadeSelection(host, r, AdapterSurvey, Unscoped, ids, p);
    var ws := CapabilityWitnesses(host, r, AdapterSurvey);
    var viable := Viable(r, ws, Registry(r), r.backendPolicy.preferredFamilies);
    ViableWays(r, ws, r.backendPolicy.preferredFamilies);
    forall c | c in p.selection.All() ensures c in viable {
      assert viable == [viable[0]] + viable[1..];
    }
  }

  // ---------------------------------------------------------------------------
  // What neighbours there are

  lemma GraphsAreLocal(s: Selection)
    requires UsualWays(s.All()) && Selects(s, CudaGraphs)
    ensures RegionAcquisition(CudaGraphs, s) == LocalAotBuild
  {
    SecondaryWays(s);
    if s.primary.family == CudaGraphs {
      assert s.primary in [s.primary];
    } else {
      SecondaryIs(CudaGraphs, s.secondary, LocalAotBuild);
    }
  }

  lemma LocalRegionIsDecode(s: Selection, region: CompileRegion)
    requires region in CompileRegions(s, AdapterSurvey, Unscoped)
    requires region.rankDisposition == RankLocal || region.name == DECODE
    ensures Selects(s, CudaGraphs) && region.family == CudaGraphs
  {
    hide CompileRegions;
    RegionsAre(s, AdapterSurvey, Unscoped, region);
    var sr :| sr in AdapterSurvey.regions && KeepsRegion(sr, s, Unscoped) && region == CompileRegionOf(sr, s);
    RegionsAreFive(sr);
    assert |TransformerBlocks.name| == 22 && |Prefill.name| == 17 && |KvUpdate.name| == 15 && |Experts.name| == 18
           && |DECODE| == 16;
  }

  /** What is rank-local is compiled for decode attention; there is one capture. */
  lemma LocalIsDecode(host: Host, r: Request, ids: Digests, p: BuildPlan, q: Requirement)
    requires MadeFrom(host, r, AdapterSurvey, Unscoped, ids, p)
    requires q in p.requirements && q.rankDisposition == RankLocal
    ensures Selects(p.selection, CudaGraphs) && q.acquisition == LocalAotBuild
    ensures q.artifactClass == CudaGraphCapture ==> q == CaptureRequirement(r, p.witnesses, p.shapes)
  {
    hide CapabilityWitnesses, Registry, CompileRegions, Selected, ScopedShapes, ShapeEnvelope, ArtifactRequirements,
         Obligations, ManifestOf, Evidence, RewriteTrace, GuaranteeOf, EnvelopeOf, Lowering.GraphOf, ArtifactProofOf;
    MadeWays(host, r, ids, p);
    RequirementsAre(r, p.witnesses, p.shapes, p.selection, p.regions, p.envelope, Unscoped, q);
    if q == CaptureRequirement(r, p.witnesses, p.shapes) {
      if CapturesGraphs(p.regions, p.envelope, Unscoped) {
        var region :| region in p.regions && region.name == DECODE;
        LocalRegionIsDecode(p.selection, region);
      }
    } else {
      var region :| region in p.regions
                    && (|| q == GraphRequirement(r, p.witnesses, p.shapes, p.selection, region)
                        || q == BinaryRequirement(r, p.witnesses, p.shapes, p.selection, region));
      LocalRegionIsDecode(p.selection, region);
      GraphsAreLocal(p.selection);
    }
  }

  /** The prefill graph is shared, and comes by the way of the primary backend. */
  lemma PrefillIsShared(host: Host, r: Request, ids: Digests, p: BuildPlan) returns (q: Requirement)
    requires MadeFrom(host, r, AdapterSurvey, Unscoped, ids, p)
    ensures q in p.requirements && q.rankDisposition == Shared && q.artifactClass == CompiledGraph
    ensures q.acquisition == p.selection.primary.acquisition
  {
    hide CapabilityWitnesses, Registry, CompileRegions, Selected, ScopedShapes, ShapeEnvelope, ArtifactRequirements,
         Obligations, ManifestOf, Evidence, RewriteTrace, GuaranteeOf, EnvelopeOf, Lowering.GraphOf, ArtifactProofOf;
    PrefillIsKept(p.selection);
    var region := CompileRegionOf(Prefill, p.selection);
    q := GraphRequirement(r, p.witnesses, p.shapes, p.selection, region);
    RequirementsAre(r, p.witnesses, p.shapes, p.selection, p.regions, p.envelope, Unscoped, q);
  }

  lemma ParallelIsLocal(o: Outcome, q: Requirement)
    requires WellPlanned(o) && q in o.plan.requirements
    requires ParallelWave(o.plan.graph.nodes, Lowering.KeyOf(Lowering.ArtifactNode(q)))
    ensures q.rankDisposition == RankLocal
  {
    hide WellPlanned;
    ArtifactNodeIs(o, q);
  }

  /** Two artifacts can only get in each other's way where decode attention is compiled alone. */
  lemma NeighboursAreDecode(host: Host, r: Request, ids: Digests, o: Outcome, q: Requirement, q': Requirement)
    requires WellPlanned(o) && Closed(o) && MadeFrom(host, r, AdapterSurvey, Unscoped, ids, o.plan)
    requires Neighbours(o, q, q')
    ensures CompilesDecodeAlone(o.plan.selection)
  {
    hide WellPlanned, Closed, MadeFrom, ParallelWave, DocumentFor, Slug;
    ParallelIsLocal(o, q);
    ParallelIsLocal(o, q');
    LocalIsDecode(host, r, ids, o.plan, q);
    LocalIsDecode(host, r, ids, o.plan, q');
    var shared := PrefillIsShared(host, r, ids, o.plan);
    if !Lowering.IsTransferred(shared.acquisition) {
      assert Lowering.KeyOf(Lowering.ArtifactNode(shared)) == Lowering.KeyOf(Lowering.ArtifactNode(q));
      ParallelIsLocal(o, shared);
      assert false;
    }
  }

  lemma DecodeIsParted(host: Host, r: Request, ids: Digests, p: BuildPlan) returns (q: Requirement, q': Requirement)
    requires MadeFrom(host, r, AdapterSurvey, Unscoped, ids, p) && CompilesDecodeAlone(p.selection)
    ensures ServingPlan(r, p, q, q')
  {
    hide MadeFrom, ServingPlan;
    MadeWays(host, r, ids, p);
    SecondaryWays(p.selection);
    assert p.selection.primary in [p.selection.primary];
    q, q' := ServingParts(host, r, ids, p);
  }

  // ---------------------------------------------------------------------------
  // The same request for another number of replicas

  function Rescaled(r: Request): Request {
    r.(topology := r.topology.(replicas := if r.topology.replicas == 1 then 2 else 1))
  }

  lemma {:induction false} SameFilter<T(!new)>(s: seq<T>, a: T -> bool, b: T -> bool)
    requires forall x :: x in s ==> (a(x) <==> b(x))
    ensures Filter(s, a) == Filter(s, b)
  {
    if s != [] {
      assert s[|s| - 1] in s;
      SameFilter(s[..|s| - 1], a, b);
    }
  }

  lemma RescaledRegistry(r: Request)
    ensures Registry(Rescaled(r)) == Registry(r)
  {
    SameFilter(AllCapabilities, (c: Capability) => Rescaled(r).environment.vendor in c.vendors,
               (c: Capability) => r.environment.vendor in c.vendors);
  }

  lemma RescaledCandidate(r: Request, ws: seq<Witness>, registry: seq<Capability>, f: BackendFamily)
    ensures CandidateFor(Rescaled(r), ws, registry, f) == CandidateFor(r, ws, registry, f)
  {
    hide FirstAdmissible, FindCapability;
    var found := FindCapability(registry, f);
    if found.Some? {
      assert BackendProofs(Rescaled(r), ws, found.value) == BackendProofs(r, ws, found.value);
    }
  }

  lemma {:induction false} RescaledViable(r: Request, ws: seq<Witness>, registry: seq<Capability>,
                                          families: seq<BackendFamily>)
    ensures Viable(Rescaled(r), ws, registry, families) == Viable(r, ws, registry, families)
  {
    hide CandidateFor, Rescaled;
    if families != [] {
      RescaledViable(r, ws, registry, families[..|families| - 1]);
      RescaledCandidate(r, ws, registry, families[|families| - 1]);
    }
  }

  lemma RescaledSelected(host: Host, r: Request)
    ensures var r' := Rescaled(r);
            Selected(r', CapabilityWitnesses(host, r', AdapterSurvey), Registry(r'))
            == Selected(r, CapabilityWitnesses(host, r, AdapterSurvey), Registry(r))
  {
    hide Registry, Viable;
    var ws := CapabilityWitnesses(host, r, AdapterSurvey);
    assert CapabilityWitnesses(host, Rescaled(r), AdapterSurvey) == ws;
    RescaledRegistry(r);
    RescaledViable(r, ws, Registry(r), r.backendPolicy.preferredFamilies);
  }

  lemma RescaledShapes(r: Request, regions: seq<CompileRegion>)
    ensures SkipsHotShape(Rescaled(r), regions, None) == SkipsHotShape(r, regions, None)
    ensures Clashes(Rescaled(r), regions, None) == Clashes(r, regions, None)
  {
    hide Reaches, Collide, EnvelopeOf;
    assert forall p :: Skipped(Rescaled(r), regions, p) == Skipped(r, regions, p);
  }

  lemma RescaledSteps(r: Request, regions: seq<CompileRegion>)
    ensures StepsOwed(Rescaled(r), regions, None) == StepsOwed(r, regions, None)
    ensures ResidualKept(Rescaled(r), regions, None) == ResidualKept(r, regions, None)
  {
    hide Reaches, PointSteps, OnPlane, Sum, EnvelopeOf;
  }

  lemma RescaledIsAcceptable(r: Request, regions: seq<CompileRegion>)
    requires Acceptable(r, Unscoped, regions)
    ensures Acceptable(Rescaled(r), Unscoped, regions)
  {
    hide SkipsHotShape, Clashes, StepsOwed, ResidualKept, EnvelopeOf, Filter, AllowedRegions, CaptureCount, Meets,
         Wrapped;
    RescaledShapes(r, regions);
    RescaledSteps(r, regions);
  }

  lemma RescaledCanonical(raw: Request)
    ensures CanonicalBody(Rescaled(raw)) == Rescaled(CanonicalBody(raw))
  {
    hide SortDedup, CanonicalLayers, CanonicalKvLayout;
  }

  /** A request that is accepted is accepted for another number of replicas, with the same backends. */
  lemma RescaledIsAccepted(host: Host, raw: Request, ids: Digests, p: BuildPlan) returns (p': BuildPlan)
    requires SurveyHolds(AdapterSurvey) && Resolve(host, raw, AdapterSurvey, Unscoped, ids).Success?
    requires PlanFor(host, CanonicalBody(raw), AdapterSurvey, Unscoped, ids) == Success(p)
    ensures Resolve(host, Rescaled(raw), AdapterSurvey, Unscoped, ids).Success?
    ensures PlanFor(host, CanonicalBody(Rescaled(raw)), AdapterSurvey, Unscoped, ids) == Success(p')
    ensures p'.selection == p.selection
  {
    hide SurveyHolds, Resolve, PlanFor, CapabilityWitnesses, Registry, CompileRegions, Selected, MadeFrom, Acceptable,
         EnvelopeOf, Narrowed, CanonicalBody;
    var (r, r') := (CanonicalBody(raw), CanonicalBody(Rescaled(raw)));
    RescaledCanonical(raw);
    PlanIsMade(host, r, AdapterSurvey, Unscoped, ids);
    MadeSelection(host, r, AdapterSurvey, Unscoped, ids, p);
    RescaledSelected(host, r);
    PrefillIsKept(p.selection);
    SettledPlans(host, r', AdapterSurvey, Unscoped, ids, p.selection, p.regions);
    p' := PlanFor(host, r', AdapterSurvey, Unscoped, ids).value;
    PlanIsMade(host, r', AdapterSurvey, Unscoped, ids);
    MadeSelection(host, r', AdapterSurvey, Unscoped, ids, p');
    AcceptedExactly(host, raw, AdapterSurvey, Unscoped, ids, p);
    RescaledIsAcceptable(r, p.regions);
    AcceptedExactly(host, Rescaled(raw), AdapterSurvey, Unscoped, ids, p');
  }

  // ---------------------------------------------------------------------------
  // Plans with executions that fail

  /** After some history of accepted plans, executing this one can fail. */
  ghost predicate CanEverFail(run: Run) {
    exists runs, caches :: History(AdapterSurvey, runs, caches) && FailsOn(run, caches[|runs|])
  }

  lemma FailureIsDecode(host: Host, r: Request, ids: Digests, run: Run)
    requires WellPlanned(run.outcome) && MadeFrom(host, r, AdapterSurvey, Unscoped, ids, run.outcome.plan)
    requires run.outcome.survey == AdapterSurvey && CanEverFail(run)
    ensures CompilesDecodeAlone(run.outcome.plan.selection)
  {
    hide WellPlanned, MadeFrom, CanExecute, Filed, Inv, Filing, Neighbours, Happened, CompilesDecodeAlone;
    var runs, caches :| History(AdapterSurvey, runs, caches) && FailsOn(run, caches[|runs|]);
    HistoryIsFiled(AdapterSurvey, runs, caches, |runs|);
    WellPlannedIsClosed(run.outcome);
    FailsExactly(run, caches[|runs|]);
    var q, q' :| StaleNeighbour(run.outcome, caches[|runs|], q, q');
    NeighboursAreDecode(host, r, ids, run.outcome, q, q');
  }

  lemma DecodeFailsAfter(host: Host, r: Request, ids: Digests, run: Run, before: Run)
    requires WellPlanned(run.outcome) && run.outcome.survey == AdapterSurvey
    requires MadeFrom(host, r, AdapterSurvey, Unscoped, ids, run.outcome.plan)
    requires WellPlanned(before.outcome) && before.outcome.survey == AdapterSurvey
    requires MadeFrom(host, Rescaled(r), AdapterSurvey, Unscoped, ids, before.outcome.plan)
    requires CompilesDecodeAlone(run.outcome.plan.selection) && CompilesDecodeAlone(before.outcome.plan.selection)
    ensures CanEverFail(run)
  {
    hide MadeFrom, WellPlanned, ServingPlan, CompilesDecodeAlone, History, FailsOn;
    var a, a' := DecodeIsParted(host, r, ids, run.outcome.plan);
    var b, b' := DecodeIsParted(host, Rescaled(r), ids, before.outcome.plan);
    var c := RetargetingCanFail(before, b, b', Rescaled(r), run, a, a', r);
    assert [map[], c][|[before]|] == c;
  }

  lemma DecodeCanFail(host: Host, raw: Request, ids: Digests, o: Outcome, clock: Handle -> nat)
    requires SurveyHolds(AdapterSurvey) && Resolve(host, raw, AdapterSurvey, Unscoped, ids) == Success(o)
    requires CompilesDecodeAlone(o.plan.selection) && WellPlanned(o)
    requires MadeFrom(host, CanonicalBody(raw), AdapterSurvey, Unscoped, ids, o.plan)
    ensures CanEverFail(Run(o, clock))
  {
    hide SurveyHolds, Resolve, PlanFor, MadeFrom, WellPlanned, CompilesDecodeAlone, Validate, CanEverFail, Rescaled,
         CanonicalBody;
    var p := AcceptedPlan(host, raw, AdapterSurvey, Unscoped, ids);
    var p' := RescaledIsAccepted(host, raw, ids, p);
    var same := AcceptedPlan(host, Rescaled(raw), AdapterSurvey, Unscoped, ids);
    var o' := Resolve(host, Rescaled(raw), AdapterSurvey, Unscoped, ids).value;
    AcceptedIsWellPlanned(host, Rescaled(raw), AdapterSurvey, Unscoped, ids);
    PlanIsMade(host, CanonicalBody(Rescaled(raw)), AdapterSurvey, Unscoped, ids);
    RescaledCanonical(raw);
    DecodeFailsAfter(host, CanonicalBody(raw), ids, Run(o, clock), Run(o', clock));
  }

  /** For every request that is accepted unscoped: some history makes its executions fail
      exactly when it compiles decode attention alone, with CUDA graphs beside a primary
      backend whose artifacts are fetched. */
  lemma CanFailExactly(host: Host, raw: Request, ids: Digests, o: Outcome, clock: Handle -> nat)
    requires SurveyHolds(AdapterSurvey) && Resolve(host, raw, AdapterSurvey, Unscoped, ids) == Success(o)
    ensures WellPlanned(o) && (CanEverFail(Run(o, clock)) <==> CompilesDecodeAlone(o.plan.selection))
  {
    hide SurveyHolds, Resolve, PlanFor, MadeFrom, WellPlanned, CompilesDecodeAlone, Validate, CanEverFail;
    var p := AcceptedPlan(host, raw, AdapterSurvey, Unscoped, ids);
    AcceptedIsWellPlanned(host, raw, AdapterSurvey, Unscoped, ids);
    PlanIsMade(host, CanonicalBody(raw), AdapterSurvey, Unscoped, ids);
    if CanEverFail(Run(o, clock)) {
      FailureIsDecode(host, CanonicalBody(raw), ids, Run(o, clock));
    }
    if CompilesDecodeAlone(o.plan.selection) {
      DecodeCanFail(host, raw, ids, o, clock);
    }
  }

  // ---------------------------------------------------------------------------
  // The application's own request

  lemma TritonComesFirst(raw: Request)
    requires Triton in raw.backendPolicy.preferredFamilies && FlashInfer !in raw.backendPolicy.preferredFamilies
    ensures var sorted := CanonicalBody(raw).backendPolicy.preferredFamilies; sorted != [] && sorted[0] == Triton
  {
    hide SortDedup;
    var (families, sorted) := (raw.backendPolicy.preferredFamilies, CanonicalBody(raw).backendPolicy.preferredFamilies);
    FamilyOrder();
    SortDedupMembers(families, FamilyLe);
    assert Triton in Elements(families);
    assert Triton in Elements(sorted);
    var i :| 0 <= i < |sorted| && sorted[i] == Triton;
    assert sorted[0] in Elements(sorted);
    assert sorted[0] in families;
  }

  /** Triton as the first choice is compiled here. */
  lemma TritonIsCompiled(host: Host, r: Request)
    requires r.environment.vendor != UnknownVendor && r.backendPolicy.packaging != PrebuiltOnly
    requires r.backendPolicy.preferredFamilies != [] && r.backendPolicy.preferredFamilies[0] == Triton
    ensures var selected := Selected(r, CapabilityWitnesses(host, r, AdapterSurvey), Registry(r));
            selected.Success? && selected.value.primary.acquisition == LocalAotBuild
  {
    hide CapabilityWitnesses, Registry, CandidateFor, Viable;
    var ws := CapabilityWitnesses(host, r, AdapterSurvey);
    TritonIsViable(r, ws);
    FirstViable(r, ws, r.backendPolicy.preferredFamilies);
    forall c | c in AllCapabilities && c.family == Triton ensures c.acquisitions == [LocalAotBuild] {
      WaysOf(c);
    }
    WayOf(r, ws, Triton, LocalAotBuild);
  }

  lemma SelectedIsPreferred(r: Request, ws: seq<Witness>, f: BackendFamily)
    requires Selected(r, ws, Registry(r)).Success? && Selects(Selected(r, ws, Registry(r)).value, f)
    ensures f in r.backendPolicy.preferredFamilies
  {
    hide Registry, CandidateFor, Viable;
    var families := r.backendPolicy.preferredFamilies;
    var viable := Viable(r, ws, Registry(r), families);
    var c :| c in viable && c.family == f;
    ViableAre(r, ws, families, c);
    var g :| g in families && CandidateFor(r, ws, Registry(r), g) == Some(c);
    FamilyOf(r, ws, g);
  }

  lemma DefaultSelects(host: Host, revision: string, selected: Selection)
    requires host.vendor != UnknownVendor
    requires var r := CanonicalBody(DefaultRequest(host, revision));
             Selected(r, CapabilityWitnesses(host, r, AdapterSurvey), Registry(r)) == Success(selected)
    ensures CompilesDecodeAlone(selected) <==> Serving(host, DefaultRequest(host, revision))
  {
    hide CapabilityWitnesses, Registry, Selected, CanonicalBody, CudaFamilies, ParseNvidiaClass, Serving;
    var raw := DefaultRequest(host, revision);
    var r := CanonicalBody(raw);
    DefaultIsServingExactly(host, revision);
    FamiliesAre(host.gpuArches, host.flashinferPrebuilt);
    CanonicalKeeps(raw, CudaGraphs);
    if Serving(host, raw) {
      CanonicalStaysServing(host, raw);
      ServingIsSelected(host, r, AdapterSurvey);
    } else if CompilesDecodeAlone(selected) {
      SelectedIsPreferred(r, CapabilityWitnesses(host, r, AdapterSurvey), CudaGraphs);
      TritonComesFirst(raw);
      TritonIsCompiled(host, r);
      assert false;
    }
  }

  lemma NothingIsNarrowed(host: Host, revision: string, s: Selection)
    ensures Narrowed(s, EnvelopeOf(CanonicalBody(DefaultRequest(host, revision)).level)) == s
  {
    hide SortDedup, CanonicalLayers, CanonicalKvLayout, ContractOf;
  }

  lemma DefaultSelection(host: Host, revision: string, ids: Digests, p: BuildPlan)
    requires host.vendor != UnknownVendor
    requires MadeFrom(host, CanonicalBody(DefaultRequest(host, revision)), AdapterSurvey, Unscoped, ids, p)
    ensures CompilesDecodeAlone(p.selection) <==> Serving(host, DefaultRequest(host, revision))
  {
    hide MadeFrom, CompilesDecodeAlone, Serving, Selected, CapabilityWitnesses, Registry, CompileRegions, CanonicalBody,
         DefaultRequest, Narrowed, EnvelopeOf;
    var r := CanonicalBody(DefaultRequest(host, revision));
    MadeSelection(host, r, AdapterSurvey, Unscoped, ids, p);
    var selected := Selected(r, CapabilityWitnesses(host, r, AdapterSurvey), Registry(r)).value;
    NothingIsNarrowed(host, revision, selected);
    DefaultSelects(host, revision, selected);
  }

  /** Executing the application's own request can ever fail exactly on Nvidia hosts that have
      FlashInfer prebuilt and an architecture the parser recognizes. */
  lemma DefaultCanFailExactly(host: Host, revision: string, ids: Digests, o: Outcome, clock: Handle -> nat)
    requires SurveyHolds(AdapterSurvey)
    requires Resolve(host, DefaultRequest(host, revision), AdapterSurvey, Unscoped, ids) == Success(o)
    ensures CanEverFail(Run(o, clock)) <==>
              && host.vendor == Nvidia && host.flashinferPrebuilt
              && exists a :: a in host.gpuArches && ParseNvidiaClass(a).Some?
  {
    hide SurveyHolds, Resolve, PlanFor, MadeFrom, WellPlanned, CompilesDecodeAlone, CanEverFail, Serving, Validate,
         CanonicalBody, DefaultRequest, ParseNvidiaClass;
    var raw := DefaultRequest(host, revision);
    DefaultIsAcceptedExactly(host, revision, ids);
    DefaultIsServingExactly(host, revision);
    var p := AcceptedPlan(host, raw, AdapterSurvey, Unscoped, ids);
    PlanIsMade(host, CanonicalBody(raw), AdapterSurvey, Unscoped, ids);
    DefaultSelection(host, revision, ids, p);
    CanFailExactly(host, raw, ids, o, clock);
  }
}
