/** Accepted plans against the cache: their batches cover every node once, and they ask for
    artifacts of which each has a storage key and a triple of its own. */
module PlannedCache {
  import opened Ordering
  import opened Types
  import opened Plan
  import opened Resolution
  import opened ArtifactCache
  import opened CacheRace
  import opened Scheduler
  import opened PlannedRun
  import opened Execution
  import opened PlannedOutcome
  import opened Scoping
  import Lowering

  // ---------------------------------------------------------------------------
  // Accepted plans execute to the end

  lemma {:induction false} EntryIsFound(primary: BackendFamily, requirements: seq<Requirement>, q: Requirement)
    requires q in requirements
    ensures var found := EntryFor(ManifestOf(primary, requirements), q.scope, q.artifactClass);
            found.Some? && found.value.identity == ManifestIdentity(primary, q.artifactClass, q.scope)
  {
    var m := ManifestOf(primary, requirements);
    if requirements[0].scope != q.scope || requirements[0].artifactClass != q.artifactClass {
      assert m[1..] == ManifestOf(primary, requirements[1..]);
      EntryIsFound(primary, requirements[1..], q);
    }
  }

  lemma WellPlannedIsClosed(o: Outcome)
    requires WellPlanned(o)
    ensures Closed(o)
  {
    forall q | q in o.plan.requirements ensures EntryFor(o.closure, q.scope, q.artifactClass).Some? {
      EntryIsFound(o.plan.selection.primary.family, o.plan.requirements, q);
    }
  }

  lemma {:induction false} WarmupIndexIs(obligations: seq<Obligation>, name: Handle)
    ensures name in WarmupIndex(obligations) <==> exists ob :: ob in obligations && name == Warmup(WarmupLabel(ob))
    ensures name in WarmupIndex(obligations) ==>
              && WarmupIndex(obligations)[name] in obligations
              && name == Warmup(WarmupLabel(WarmupIndex(obligations)[name]))
  {
    if obligations != [] {
      var m := |obligations| - 1;
      assert obligations == obligations[..m] + [obligations[m]];
      WarmupIndexIs(obligations[..m], name);
    }
  }

  lemma WellPlannedIsPrepared(o: Outcome, clock: Handle -> nat)
    requires WellPlanned(o) && Closed(o)
    ensures Prepared(BuildOf(o, clock))
  {
    var b := BuildOf(o, clock);
    forall n | n in b.index ensures b.index[n].name == n && (b.index[n].kind == WarmupNode ==> n in b.warmups) {
      IndexIsNode(o.plan.graph.nodes, n);
      if b.index[n].kind == WarmupNode {
        WarmupIsOwed(o, b.index[n]);
      }
    }
  }

  lemma WarmupIsOwed(o: Outcome, n: Node)
    requires WellPlanned(o) && n in o.plan.graph.nodes && n.kind == WarmupNode
    ensures n.name in WarmupIndex(o.plan.obligations)
  {
    Lowering.NodesAre(o.plan.request.topology, o.plan.requirements, o.plan.obligations, n);
    WarmupIndexIs(o.plan.obligations, n.name);
  }

  /** The nodes of an accepted plan in the order they run. */
  ghost function RunNames(o: Outcome): (names: seq<Handle>)
    requires WellPlanned(o)
  {
    Flatten(RunOf(o.plan.graph.nodes).batches)
  }

  /** The executor's loops take every node of an accepted plan exactly once, get stuck on
      none, and find a requirement behind every artifact node. */
  lemma AcceptedPlanExecutes(o: Outcome, clock: Handle -> nat)
    requires WellPlanned(o)
    ensures Closed(o) && Prepared(BuildOf(o, clock))
    ensures var (b, graph) := (BuildOf(o, clock), o.plan.graph);
            && (forall w :: w in graph.waves ==> Known(b.index, w.nodeNames))
            && ScheduleAll(b.index, graph.waves, {}) == RunOf(graph.nodes)
            && RunOf(graph.nodes).pending == []
            && Known(b.index, RunNames(o)) && AllResolvable(b, RunNames(o))
    ensures DistinctBy(RunNames(o), Itself)
    ensures multiset(RunNames(o)) == multiset(Lowering.NodeNames(o.plan.graph.nodes))
  {
    var nodes := o.plan.graph.nodes;
    WellPlannedIsClosed(o);
    WellPlannedIsPrepared(o, clock);
    WavesKnown(nodes);
    PlannedRunCompletes(o.plan.request.topology, o.plan.requirements, o.plan.obligations);
    PlannedRunOnce(o.plan.request.topology, o.plan.requirements, o.plan.obligations);
    AllScheduledAreKnown(IndexOf(nodes), o.plan.graph.waves, {});
    forall n | n in RunNames(o) ensures Resolvable(BuildOf(o, clock), n) {
      NodeIsResolvable(o, clock, n);
    }
  }

  lemma NodeIsResolvable(o: Outcome, clock: Handle -> nat, n: Handle)
    requires WellPlanned(o) && Closed(o) && n in IndexOf(o.plan.graph.nodes)
    ensures Resolvable(BuildOf(o, clock), n)
  {
    IndexIsNode(o.plan.graph.nodes, n);
    Lowering.NodesAre(o.plan.request.topology, o.plan.requirements, o.plan.obligations, IndexOf(o.plan.graph.nodes)[n]);
  }

  // ---------------------------------------------------------------------------
  // A key decides where its document is filed

  function SurveyRegionFor(regions: seq<SurveyRegion>, name: string): Option<SurveyRegion> {
    if regions == [] then None
    else if regions[0].name == name then Some(regions[0])
    else SurveyRegionFor(regions[1..], name)
  }

  /** Namespace, domain and class as a survey and a storage key determine them. */
  function FiledUnder(survey: Survey, key: StorageKey): Triple {
    match key
    case ByContent(e, c, _, _, _, _, _, _, _) => (e.cacheNamespace, e.invalidationDomain, c)
    case ByRequirement(q) =>
      match SurveyRegionFor(survey.regions, q.scope)
      case Some(sr) => (sr.cacheNamespace, sr.invalidationDomain, q.artifactClass)
      case None => ("", "", q.artifactClass)
  }

  function Filing(survey: Survey): StorageKey -> Triple { (key: StorageKey) => FiledUnder(survey, key) }

  lemma {:induction false} SurveyRegionIsFound(regions: seq<SurveyRegion>, sr: SurveyRegion)
    requires sr in regions && DistinctBy(regions, RegionName)
    ensures SurveyRegionFor(regions, sr.name) == Some(sr)
  {
    if regions[0] != sr {
      assert sr in regions[1..];
      var k :| 0 < k < |regions| && regions[k] == sr;
      assert RegionName(regions[0]) != RegionName(regions[k]);
      SurveyRegionIsFound(regions[1..], sr);
    }
  }

  /** The survey region behind a requirement. */
  lemma SurveyOf(o: Outcome, q: Requirement) returns (sr: SurveyRegion)
    requires WellPlanned(o) && q in o.plan.requirements
    ensures RegionFor(o.plan.regions, q.scope).Some? && sr in o.survey.regions && sr.name == q.scope
    ensures Describes(sr, RegionFor(o.plan.regions, q.scope).value)
    ensures SurveyRegionFor(o.survey.regions, q.scope) == Some(sr)
  {
    assert Named(o.plan.regions, q.scope);
    var region := RegionFor(o.plan.regions, q.scope).value;
    assert Surveyed(o.survey, region);
    sr :| sr in o.survey.regions && Describes(sr, region);
    SurveyRegionIsFound(o.survey.regions, sr);
  }

  lemma DocumentIsFiled(o: Outcome, q: Requirement)
    requires WellPlanned(o) && Closed(o) && q in o.plan.requirements
    ensures var d := DocumentFor(o, q);
            FiledUnder(o.survey, d.storageKey) == TripleOf(d) && d.storageKey == KeyFor(o.plan, q)
  {
    var sr := SurveyOf(o, q);
  }

  /** Two artifacts of one plan never share namespace, domain and class. */
  lemma TripleTellsApart(o: Outcome, q: Requirement, q': Requirement)
    requires WellPlanned(o) && Closed(o) && q in o.plan.requirements && q' in o.plan.requirements
    requires TripleOf(DocumentFor(o, q)) == TripleOf(DocumentFor(o, q'))
    ensures q == q'
  {
    var sr := SurveyOf(o, q);
    var sr' := SurveyOf(o, q');
    assert RegionDomain(sr) == RegionDomain(sr');
    assert sr == sr';
  }

  // ---------------------------------------------------------------------------
  // The jobs of a run are independent

  ghost predicate JobOf(o: Outcome, j: Job, name: Handle)
    requires Closed(o)
  {
    IsRequired(o, name) && j.document == DocumentFor(o, name.requirement)
  }

  lemma {:induction false} JobsComeFromNames(o: Outcome, clock: Handle -> nat, names: seq<Handle>, j: Job)
    requires Closed(o) && j in JobsOf(BuildOf(o, clock), names)
    ensures exists n :: n in names && JobOf(o, j, n)
  {
    var m := |names| - 1;
    if j in JobsOf(BuildOf(o, clock), names[..m]) {
      JobsComeFromNames(o, clock, names[..m], j);
    } else {
      assert JobOf(o, j, names[m]);
    }
  }

  lemma DistinctSnoc<T, K>(s: seq<T>, x: T, key: T -> K)
    requires DistinctBy(s, key) && forall y :: y in s ==> key(y) != key(x)
    ensures DistinctBy(s + [x], key)
  {
  }

  lemma {:induction false} JobsAreTellable(o: Outcome, clock: Handle -> nat, names: seq<Handle>)
    requires WellPlanned(o) && Closed(o) && DistinctBy(names, Itself)
    ensures DistinctBy(JobsOf(BuildOf(o, clock), names), DocumentTriple)
  {
    if names != [] {
      var (b, m) := (BuildOf(o, clock), |names| - 1);
      JobsAreTellable(o, clock, names[..m]);
      if JobsAt(b, names[m]) != [] {
        var last := JobsAt(b, names[m])[0];
        forall j | j in JobsOf(b, names[..m]) ensures DocumentTriple(j) != DocumentTriple(last) {
          JobsComeFromNames(o, clock, names[..m], j);
          var n :| n in names[..m] && JobOf(o, j, n);
          if DocumentTriple(j) == DocumentTriple(last) {
            TripleTellsApart(o, n.requirement, names[m].requirement);
            assert false;
          }
        }
        DistinctSnoc(JobsOf(b, names[..m]), last, DocumentTriple);
      }
    }
  }

  /** The jobs of distinct nodes form a batch in the sense of the race model: distinct
      triples, each filed as its key says. */
  lemma JobsAreBatch(o: Outcome, clock: Handle -> nat, names: seq<Handle>)
    requires WellPlanned(o) && Closed(o) && DistinctBy(names, Itself)
    ensures Batch(Filing(o.survey), JobsOf(BuildOf(o, clock), names))
  {
    var jobs := JobsOf(BuildOf(o, clock), names);
    JobsAreTellable(o, clock, names);
    forall i | 0 <= i < |jobs| ensures FiledUnder(o.survey, jobs[i].document.storageKey) == DocumentTriple(jobs[i]) {
      JobsComeFromNames(o, clock, names, jobs[i]);
      var n :| n in names && JobOf(o, jobs[i], n);
      DocumentIsFiled(o, n.requirement);
    }
  }

  /** Distinct triples give distinct paths, because the key decides the triple. */
  lemma BatchIsIndependent(tau: StorageKey -> Triple, jobs: seq<Job>)
    requires Batch(tau, jobs)
    ensures Independent(jobs)
  {
    forall i, j | 0 <= i < j < |jobs| ensures DocumentPath(jobs[i]) != DocumentPath(jobs[j]) {
      assert DocumentTriple(jobs[i]) != DocumentTriple(jobs[j]);
    }
  }

  // ---------------------------------------------------------------------------
  // Runs of accepted plans

  lemma FiledIsCoherent(tau: StorageKey -> Triple, c: Cache, jobs: seq<Job>)
    requires Filed(tau, c) && Batch(tau, jobs)
    ensures Coherent(c, jobs)
  {
    forall j | j in jobs && DocumentPath(j) in c ensures TripleOf(c[DocumentPath(j)]) == DocumentTriple(j) {
      var i :| 0 <= i < |jobs| && jobs[i] == j;
      assert tau(jobs[i].document.storageKey) == DocumentTriple(jobs[i]);
    }
  }

  /** An accepted plan executed once. */
  datatype Run = Run(outcome: Outcome, clock: Handle -> nat)

  ghost function RunJobs(run: Run): seq<Job>
    requires WellPlanned(run.outcome)
  {
    WellPlannedIsClosed(run.outcome);
    JobsOf(BuildOf(run.outcome, run.clock), RunNames(run.outcome))
  }

  lemma RunJobsAreBatch(run: Run)
    requires WellPlanned(run.outcome)
    ensures Batch(Filing(run.outcome.survey), RunJobs(run)) && Independent(RunJobs(run))
  {
    AcceptedPlanExecutes(run.outcome, run.clock);
    JobsAreBatch(run.outcome, run.clock, RunNames(run.outcome));
    BatchIsIndependent(Filing(run.outcome.survey), RunJobs(run));
  }

  /** Cold: on an empty cache an accepted plan builds every artifact. */
  lemma PlannedColdRun(run: Run, i: nat)
    requires WellPlanned(run.outcome) && i < |RunJobs(run)|
    ensures RunResults(map[], RunJobs(run))[i].disposition == Executed
  {
    RunJobsAreBatch(run);
    ColdRunExecutes(map[], RunJobs(run));
  }

  lemma {:induction false} SameDocuments(o: Outcome, clock: Handle -> nat, clock': Handle -> nat, names: seq<Handle>)
    requires Closed(o)
    ensures var (a, b) := (JobsOf(BuildOf(o, clock), names), JobsOf(BuildOf(o, clock'), names));
            |a| == |b| && forall i :: 0 <= i < |a| ==> a[i].document == b[i].document
  {
    if names != [] {
      SameDocuments(o, clock, clock', names[..|names| - 1]);
    }
  }

  /** Warm: on a cache in which keys decide where documents are filed, running an accepted
      plan and running it again, however long things take, reuses every artifact and leaves
      the cache alone. */
  lemma PlannedWarmRun(c: Cache, run: Run, again: Run)
    requires WellPlanned(run.outcome) && again.outcome == run.outcome
    requires Filed(Filing(run.outcome.survey), c) && Inv(c)
    ensures var c' := RunCache(c, RunJobs(run));
            && RunCache(c', RunJobs(again)) == c'
            && (forall i :: 0 <= i < |RunJobs(again)| ==> RunResults(c', RunJobs(again))[i].disposition == Reused)
            && forall j :: j in RunJobs(again) ==> Settled(c', j.document)
  {
    hide WellPlanned, Filing, Filed, RunJobs, Settled, Hit, After, Inv;
    RunJobsAreBatch(run);
    FiledIsCoherent(Filing(run.outcome.survey), c, RunJobs(run));
    RunSettles(c, RunJobs(run));
    forall j | j in RunJobs(again) ensures exists k :: k in RunJobs(run) && k.document == j.document {
      JobsRepeat(run, again, j);
    }
    WarmRunReuses(c, RunJobs(run), RunJobs(again));
  }

  lemma JobsRepeat(run: Run, again: Run, j: Job)
    requires WellPlanned(run.outcome) && again.outcome == run.outcome && j in RunJobs(again)
    ensures exists k :: k in RunJobs(run) && k.document == j.document
  {
    hide WellPlanned, BuildOf;
    WellPlannedIsClosed(run.outcome);
    SameDocuments(run.outcome, run.clock, again.clock, RunNames(run.outcome));
    var i :| 0 <= i < |RunJobs(again)| && RunJobs(again)[i] == j;
    assert RunJobs(run)[i].document == j.document;
  }

  lemma DistinctParts(a: seq<Handle>, b: seq<Handle>)
    requires DistinctBy(a + b, Itself)
    ensures DistinctBy(a, Itself) && DistinctBy(b, Itself)
  {
    forall i, j | 0 <= i < j < |a| ensures a[i] != a[j] {
      assert (a + b)[i] != (a + b)[j];
    }
    forall i, j | 0 <= i < j < |b| ensures b[i] != b[j] {
      assert (a + b)[|a| + i] != (a + b)[|a| + j];
    }
  }

  lemma BatchNamesDistinct(batches: seq<seq<Handle>>, k: nat)
    requires k < |batches| && DistinctBy(Flatten(batches), Itself)
    ensures DistinctBy(batches[k], Itself)
  {
    FlattenAt(batches, k);
    DistinctParts(Flatten(batches[..k]) + batches[k], Flatten(batches[k + 1..]));
    DistinctParts(Flatten(batches[..k]), batches[k]);
  }
}
