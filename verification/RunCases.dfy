/** Executions under the adapter's survey on which expected properties fail. */
module RunCases {
  import opened Ordering
  import opened Types
  import opened Scope
  import opened Accelerator
  import opened Planner
  import opened PlannerFacts
  import opened Plan
  import opened Resolution
  import opened RequestNormalization
  import opened Feasibility
  import opened Adapter
  import opened Cases
  import opened ServingBuild
  import opened Application
  import opened ArtifactCache
  import opened CacheRace
  import opened Execution
  import opened PlannedOutcome
  import opened PlannedCache
  import opened PlannedExecution
  import opened PlannedRaces
  import opened Replay
  import opened PlannedReplay
  import Lowering

  // ---------------------------------------------------------------------------
  // The topology flag

  const TwoRanks := SampleRequest.(topology := Topology(2, 1, 1))

  lemma SharedIsRequired(host: Host, r: Request, ids: Digests, p: BuildPlan)
    requires MadeFrom(host, r, AdapterSurvey, Unscoped, ids, p)
    ensures exists q :: q in p.requirements && q.rankDisposition == Shared
  {
    hide CapabilityWitnesses, Registry, CompileRegions, Selected, ScopedShapes, ShapeEnvelope, ArtifactRequirements,
         Obligations, ManifestOf, Evidence, RewriteTrace, GuaranteeOf;
    PrefillIsKept(p.selection);
    var region := CompileRegionOf(Prefill, p.selection);
    var q := GraphRequirement(r, p.witnesses, p.shapes, p.selection, region);
    RequirementsAre(r, p.witnesses, p.shapes, p.selection, p.regions, p.envelope, Unscoped, q);
    assert q in p.requirements && q.rankDisposition == Shared;
  }

  /** Executions succeed, and the replay proof of every one, on any cache, denies that the
      topology can be reused. */
  ghost predicate NeverReuses(run: Run) {
    && WellPlanned(run.outcome)
    && (exists report :: Reports(run, report))
    && forall report :: Reports(run, report) ==> !ReplayProofOf(run.outcome.plan, report).topologyReuse
  }

  lemma SharedRanksDenyReuse(run: Run, q: Requirement)
    requires WellPlanned(run.outcome) && q in run.outcome.plan.requirements && q.rankDisposition == Shared
    requires ReplicaRanks(run.outcome.plan.request.topology) == 2
    ensures NeverReuses(run)
  {
    hide WellPlanned, Reports, ReplayProofOf, ReplicaRanks;
    forall report | Reports(run, report) ensures !ReplayProofOf(run.outcome.plan, report).topologyReuse {
      TopologyFlagExactly(run, report);
    }
    ColdRunReports(run);
  }

  lemma TwoRanksAreAccepted(host: Host, ids: Digests) returns (o: Outcome, q: Requirement)
    ensures SurveyHolds(AdapterSurvey) && Resolve(host, TwoRanks, AdapterSurvey, Unscoped, ids) == Success(o)
    ensures q in o.plan.requirements && q.rankDisposition == Shared && ReplicaRanks(o.plan.request.topology) == 2
  {
    hide Resolve, SurveyHolds, PlanFor, CanonicalBody, MadeFrom, Validate, ReplicaRanks, Modest;
    TwoRanksAreModest();
    assert SamplePolicy.preferredFamilies[0] == Triton;
    AdapterBuildsAreAccepted(host, TwoRanks, ids);
    o := Resolve(host, TwoRanks, AdapterSurvey, Unscoped, ids).value;
    var p := AcceptedPlan(host, TwoRanks, AdapterSurvey, Unscoped, ids);
    PlanIsMade(host, CanonicalBody(TwoRanks), AdapterSurvey, Unscoped, ids);
    SharedIsRequired(host, CanonicalBody(TwoRanks), ids, p);
    q :| q in p.requirements && q.rankDisposition == Shared;
    TopologyStays(host, ids, p);
  }

  lemma TwoRanksAreModest()
    ensures Modest(TwoRanks) && TwoRanks.environment.vendor == Amd && TwoRanks.backendPolicy == SamplePolicy
  {
  }

  /** The sample request on two ranks is accepted, and its topology is never reusable. */
  lemma TwoRanksDenyReuse(host: Host, ids: Digests, clock: Handle -> nat) returns (o: Outcome)
    ensures NeverReuses(Run(o, clock))
    ensures SurveyHolds(AdapterSurvey) && Resolve(host, TwoRanks, AdapterSurvey, Unscoped, ids) == Success(o)
  {
    hide Resolve, SurveyHolds, WellPlanned, NeverReuses, ReplicaRanks;
    var q;
    o, q := TwoRanksAreAccepted(host, ids);
    AcceptedIsWellPlanned(host, TwoRanks, AdapterSurvey, Unscoped, ids);
    SharedRanksDenyReuse(Run(o, clock), q);
  }

  lemma TopologyStays(host: Host, ids: Digests, p: BuildPlan)
    requires MadeFrom(host, CanonicalBody(TwoRanks), AdapterSurvey, Unscoped, ids, p)
    ensures ReplicaRanks(p.request.topology) == 2
  {
    hide CapabilityWitnesses, Registry, CompileRegions, Selected, ScopedShapes, ShapeEnvelope, ArtifactRequirements,
         Obligations, ManifestOf, Evidence, RewriteTrace, GuaranteeOf, SortDedup, Lowering.GraphOf, CanonicalLayers,
         CanonicalKvLayout, EnvelopeOf;
    assert p.request.topology == Topology(2, 1, 1);
  }

  lemma ColdRunReports(run: Run)
    requires WellPlanned(run.outcome)
    ensures CanExecute(run, map[], RunCache(map[], RunJobs(run)), Success(ReportOn(run, map[])))
    ensures exists report :: Reports(run, report)
  {
    hide WellPlanned, CanExecute, ReportOn, RunJobs, MayFail;
    QuietIsSafe(run, map[]);
    QuietRunExists(run, map[]);
    assert Reports(run, ReportOn(run, map[]));
  }

  // ---------------------------------------------------------------------------
  // Rebuilding for another driver

  lemma DocumentOfRegion(o: Outcome, q: Requirement, region: CompileRegion)
    requires Closed(o) && q in o.plan.requirements && RegionFor(o.plan.regions, q.scope) == Some(region)
    requires region.cacheSharing != ContentAddressed
    ensures var d := DocumentFor(o, q);
            && d.storageKey == ByRequirement(q) && d.cacheNamespace == region.cacheNamespace
            && TripleOf(d) == (region.cacheNamespace, region.invalidationDomain, q.artifactClass)
  {
    hide Closed, AnchorsFor;
  }

  lemma DecodeIsSurveyed()
    ensures SurveyRegionFor(AdapterSurvey.regions, DECODE) == Some(Decode)
  {
    hide SurveyRegionFor;
    RegionsAreFive(Decode);
    AdapterSurveyHolds();
    SurveyRegionIsFound(AdapterSurvey.regions, Decode);
  }

  /** Decode artifacts are filed by requirement, under the decode region's namespace. */
  lemma DecodeDocument(o: Outcome, q: Requirement)
    requires WellPlanned(o) && Closed(o) && o.survey == AdapterSurvey && q in o.plan.requirements && q.scope == DECODE
    ensures var d := DocumentFor(o, q);
            && d.storageKey == ByRequirement(q) && d.cacheNamespace == Decode.cacheNamespace
            && TripleOf(d) == (Decode.cacheNamespace, Decode.invalidationDomain, q.artifactClass)
  {
    hide WellPlanned, Closed, DocumentFor, RegionFor, SurveyRegionFor;
    var sr := SurveyOf(o, q);
    DecodeIsSurveyed();
    DocumentOfRegion(o, q, RegionFor(o.plan.regions, q.scope).value);
  }

  /** After the first run the second has the first one's compiled graph to evict, in the
      directory that its other decode worker lists. */
  lemma DecodeIsStale(run: Run, q: Requirement, q': Requirement, r: Request, o: Outcome, p: Requirement,
                      p': Requirement,
                      r': Request)
    requires WellPlanned(run.outcome) && run.outcome.survey == AdapterSurvey && ServingPlan(r, run.outcome.plan, q, q')
    requires WellPlanned(o) && Closed(o) && o.survey == AdapterSurvey && ServingPlan(r', o.plan, p, p')
    requires AbiFingerprint(r.environment, r.topology) != AbiFingerprint(r'.environment, r'.topology)
    ensures HasStaleNeighbour(o, RunCache(map[], RunJobs(run)))
  {
    hide WellPlanned, DocumentFor, BuildOf, RunJobs, ParallelWave, Settled, Slug;
    var c := RunCache(map[], RunJobs(run));
    WellPlannedIsClosed(run.outcome);
    DecodeDocument(run.outcome, q);
    DecodeDocument(o, p);
    DecodeDocument(o, p');
    JobSettles(run, q);
    assert q != p;
    StaleIsSibling(c, DocumentFor(run.outcome, q), DocumentFor(o, p));
    assert StaleNeighbour(o, c, p, p');
  }

  lemma StaleIsSibling(c: Cache, d: Document, d': Document)
    requires Settled(c, d) && TripleOf(d) == TripleOf(d') && d.storageKey != d'.storageKey
    ensures PathOf(d) in c && Sibling(PathOf(d), c[PathOf(d)], d')
  {
  }

  lemma JobSettles(run: Run, q: Requirement)
    requires WellPlanned(run.outcome) && Closed(run.outcome) && q in run.outcome.plan.requirements
    ensures Settled(RunCache(map[], RunJobs(run)), DocumentFor(run.outcome, q))
  {
    hide WellPlanned, DocumentFor, BuildOf, Settled, Batch;
    NodeIsRun(run.outcome, run.clock, Lowering.ArtifactNode(q));
    var k := JobAt(run, RunNames(run.outcome), q);
    RunJobsAreBatch(run);
    RunSettles(map[], RunJobs(run));
    assert RunJobs(run)[k] in RunJobs(run);
  }

  /** Some execution of the plan on this cache fails on an entry that vanished. */
  ghost predicate FailsOn(run: Run, c: Cache) {
    WellPlanned(run.outcome) && exists c' :: CanExecute(run, c, c', Failure(CacheIo))
  }

  lemma StaleFails(run: Run, c: Cache)
    requires WellPlanned(run.outcome) && Closed(run.outcome) && Filed(Filing(run.outcome.survey), c)
    requires HasStaleNeighbour(run.outcome, c)
    ensures FailsOn(run, c)
  {
    hide WellPlanned, CanExecute, ReportOn, RunJobs, MayFail, Filed, HasStaleNeighbour;
    FailsExactly(run, c);
    AcceptedExecutesExactly(run, c);
    var c', r :| CanExecute(run, c, c', r) && r.Failure?;
  }

  /** Two plans that compile only decode attention, for different targets: executing the first
      cannot fail, and then executing the second can, on a cache entry that one of the two
      decode workers evicts under the other. */
  lemma RetargetingCanFail(run: Run, q: Requirement, q': Requirement, r: Request, again: Run, p: Requirement,
                           p': Requirement, r': Request) returns (c: Cache)
    requires WellPlanned(run.outcome) && run.outcome.survey == AdapterSurvey && ServingPlan(r, run.outcome.plan, q, q')
    requires WellPlanned(again.outcome) && again.outcome.survey == AdapterSurvey
    requires ServingPlan(r', again.outcome.plan, p, p')
    requires AbiFingerprint(r.environment, r.topology) != AbiFingerprint(r'.environment, r'.topology)
    ensures History(AdapterSurvey, [run], [map[], c]) && FailsOn(again, c)
  {
    hide WellPlanned, CanExecute, ReportOn, RunJobs, MayFail, Filed, Inv, FailsOn, Filing, ServingPlan,
         HasStaleNeighbour;
    c := RunCache(map[], RunJobs(run));
    ColdRunReports(run);
    assert Happened(run, map[], c);
    HistoryIsFiled(AdapterSurvey, [run], [map[], c], 1);
    WellPlannedIsClosed(again.outcome);
    DecodeIsStale(run, q, q', r, again.outcome, p, p', r');
    StaleFails(again, c);
  }

  /** A serving build, and another one after the driver has changed: both requests are accepted,
      the first execution cannot fail, and the second can. */
  lemma ServingRebuildCanFail(host: Host, raw: Request, host': Host, raw': Request, ids: Digests, clock: Handle -> nat)
    returns (run: Run, again: Run, c: Cache)
    requires Serving(host, raw) && Serving(host', raw')
    requires raw.environment.driverVersion != raw'.environment.driverVersion
    ensures History(AdapterSurvey, [run], [map[], c]) && FailsOn(again, c)
    ensures SurveyHolds(AdapterSurvey) && Resolve(host, raw, AdapterSurvey, Unscoped, ids) == Success(run.outcome)
    ensures Resolve(host', raw', AdapterSurvey, Unscoped, ids) == Success(again.outcome)
  {
    hide Resolve, SurveyHolds, CanonicalBody, WellPlanned, Serving, FailsOn, ServingPlan, History;
    var o, q, q' := ServingIsAccepted(host, raw, ids);
    var o', p, p' := ServingIsAccepted(host', raw', ids);
    run, again := Run(o, clock), Run(o', clock);
    CanonicalStaysServing(host, raw);
    CanonicalStaysServing(host', raw');
    c := RetargetingCanFail(run, q, q', CanonicalBody(raw), again, p, p', CanonicalBody(raw'));
  }

  /** For instance the application's own request, on a host with FlashInfer prebuilt and a
      recognized architecture, before and after a driver upgrade. */
  lemma DriverUpgradeCanFail(host: Host, driver: string, revision: string, ids: Digests, clock: Handle -> nat)
    returns (run: Run, again: Run, c: Cache)
    requires host.vendor == Nvidia && host.flashinferPrebuilt && driver != host.driverVersion
    requires exists a :: a in host.gpuArches && ParseNvidiaClass(a).Some?
    ensures var upgraded := host.(driverVersion := driver);
            && History(AdapterSurvey, [run], [map[], c]) && FailsOn(again, c)
            && SurveyHolds(AdapterSurvey)
            && Resolve(host, DefaultRequest(host, revision), AdapterSurvey, Unscoped, ids) == Success(run.outcome)
            && Resolve(upgraded, DefaultRequest(upgraded, revision), AdapterSurvey, Unscoped, ids)
               == Success(again.outcome)
  {
    hide Resolve, SurveyHolds, FailsOn, History, Serving, ParseNvidiaClass;
    var upgraded := host.(driverVersion := driver);
    DefaultIsServingExactly(host, revision);
    DefaultIsServingExactly(upgraded, revision);
    run, again, c := ServingRebuildCanFail(
      host, DefaultRequest(host, revision), upgraded, DefaultRequest(upgraded, revision), ids, clock);
  }
}
