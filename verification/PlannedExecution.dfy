/** Every execution of an accepted plan, with parallel batches in any interleaving: what the
    successful ones give, exactly when one can fail, and histories of them. */
module PlannedExecution {
  import opened Ordering
  import opened Types
  import opened Planner
  import opened ArtifactCache
  import opened CacheRace
  import opened Scheduler
  import opened Execution
  import opened ExecutionRaces
  import opened PlannedOutcome
  import opened PlannedCache

  /** The results of running the nodes of an accepted plan one after the other. */
  ghost function ResultsOn(run: Run, c: Cache): seq<NodeResult>
    requires WellPlanned(run.outcome)
  {
    AcceptedPlanExecutes(run.outcome, run.clock);
    ResultsOf(BuildOf(run.outcome, run.clock), c, RunNames(run.outcome))
  }

  /** The report of that sequential run. */
  ghost function ReportOn(run: Run, c: Cache): Report
    requires WellPlanned(run.outcome)
  {
    ReportFor(run.outcome, ResultsOn(run, c))
  }

  /** Executing the plan on `c` can leave `c'` and return `r`. */
  ghost predicate CanExecute(run: Run, c: Cache, c': Cache, r: Result<Report, ExecutionError>)
    requires WellPlanned(run.outcome)
  {
    AcceptedPlanExecutes(run.outcome, run.clock);
    ExecutesTo(run.outcome, run.clock, c, c', r)
  }

  ghost function BuildOn(run: Run): Build
    requires WellPlanned(run.outcome)
  {
    WellPlannedIsClosed(run.outcome);
    BuildOf(run.outcome, run.clock)
  }

  /** The batches of an accepted plan, each with the mode of its wave. */
  ghost function StepsOn(run: Run): seq<Step>
    requires WellPlanned(run.outcome)
  {
    AcceptedPlanExecutes(run.outcome, run.clock);
    StepsOf(BuildOn(run).index, run.outcome.plan.graph.waves, {})
  }

  lemma {:induction false} StepHasWave(index: NodeIndex, waves: seq<Wave>, completed: set<Handle>, step: Step)
    requires (forall w :: w in waves ==> Known(index, w.nodeNames)) && step in StepsOf(index, waves, completed)
    ensures exists w :: w in waves && step.parallel == Parallel(w.discipline)
                        && forall n :: n in step.names ==> n in w.nodeNames
    decreases waves
  {
    assert waves[0] in waves;
    var s := ScheduleWave(index, waves[0].nodeNames, completed);
    if step in WithMode(s.batches, Parallel(waves[0].discipline)) {
      var k :| 0 <= k < |s.batches| && step == Step(s.batches[k], Parallel(waves[0].discipline));
      forall n | n in step.names ensures n in waves[0].nodeNames {
        BatchIsPending(index, waves[0].nodeNames, completed, k, n);
      }
    } else {
      StepHasWave(index, waves[1..], completed + Names(Flatten(s.batches)), step);
      var w :| w in waves[1..] && step.parallel == Parallel(w.discipline)
               && forall n :: n in step.names ==> n in w.nodeNames;
      assert w in waves;
    }
  }

  lemma {:induction false} BatchIsPending(index: NodeIndex, pending: seq<Handle>, completed: set<Handle>, k: nat,
                                          n: Handle)
    requires Known(index, pending)
    requires var batches := ScheduleWave(index, pending, completed).batches; k < |batches| && n in batches[k]
    ensures n in pending
    decreases |pending|
  {
    hide Ready, Names;
    var ready := ReadyNames(index, pending, completed);
    if k > 0 {
      RetainShrinks(pending, ready);
      BatchIsPending(index, Retain(pending, ready), completed + Names(ready), k - 1, n);
    }
  }

  /** A batch is run in parallel exactly when its wave is a parallel one. */
  lemma StepMode(run: Run, k: nat)
    requires WellPlanned(run.outcome) && k < |StepsOn(run)|
    ensures exists w :: w in run.outcome.plan.graph.waves
                        && (StepsOn(run)[k].parallel <==> w.discipline == ParallelPerRank)
                        && forall n :: n in StepsOn(run)[k].names ==> n in w.nodeNames
  {
    AcceptedPlanExecutes(run.outcome, run.clock);
    StepHasWave(BuildOn(run).index, run.outcome.plan.graph.waves, {}, StepsOn(run)[k]);
  }

  lemma StepsAreSound(run: Run)
    requires WellPlanned(run.outcome)
    ensures AllKnown(BuildOn(run), StepsOn(run)) && AllSound(Filing(run.outcome.survey), BuildOn(run), StepsOn(run))
    ensures Flatten(BatchesOf(StepsOn(run))) == RunNames(run.outcome)
  {
    hide WellPlanned, BuildOf, Sound, AllKnown;
    var (o, b, steps) := (run.outcome, BuildOn(run), StepsOn(run));
    AcceptedPlanExecutes(o, run.clock);
    StepsKnown(b, o.plan.graph.waves, {});
    StepsAreScheduled(b.index, o.plan.graph.waves, {});
    forall step | step in steps ensures Sound(Filing(o.survey), b, step) {
      var k :| 0 <= k < |steps| && steps[k] == step;
      StepIsSound(run, k);
    }
  }

  lemma StepIsSound(run: Run, k: nat)
    requires WellPlanned(run.outcome) && k < |StepsOn(run)| && Known(BuildOn(run).index, StepsOn(run)[k].names)
    ensures Sound(Filing(run.outcome.survey), BuildOn(run), StepsOn(run)[k])
  {
    hide WellPlanned, StepsOf, Batch, BuildOf;
    var (o, b, steps) := (run.outcome, BuildOn(run), StepsOn(run));
    AcceptedPlanExecutes(o, run.clock);
    StepsAreScheduled(b.index, o.plan.graph.waves, {});
    forall n | n in steps[k].names ensures n in RunNames(o) {
      InFlatten(steps, k, n);
    }
    assert BatchesOf(steps)[k] == steps[k].names;
    BatchNamesDistinct(BatchesOf(steps), k);
    JobsAreBatch(o, run.clock, steps[k].names);
  }

  lemma PrefixIsBatch(run: Run, k: nat)
    requires WellPlanned(run.outcome) && k <= |StepsOn(run)|
    ensures Batch(Filing(run.outcome.survey), JobsOf(BuildOn(run), Flatten(BatchesOf(StepsOn(run)[..k]))))
  {
    hide WellPlanned, BuildOf, StepsOf, Batch, AllSound, AllKnown, RunNames;
    var steps := StepsOn(run);
    AcceptedPlanExecutes(run.outcome, run.clock);
    StepsAreSound(run);
    assert BatchesOf(steps) == BatchesOf(steps[..k]) + BatchesOf(steps[k..]);
    FlattenSplit(BatchesOf(steps[..k]), BatchesOf(steps[k..]));
    DistinctParts(Flatten(BatchesOf(steps[..k])), Flatten(BatchesOf(steps[k..])));
    JobsAreBatch(run.outcome, run.clock, Flatten(BatchesOf(steps[..k])));
  }

  lemma ExecutesAre(run: Run, c: Cache, c': Cache, r: Result<Report, ExecutionError>)
    requires WellPlanned(run.outcome) && AllKnown(BuildOn(run), StepsOn(run))
    ensures CanExecute(run, c, c', r) <==>
              exists v :: Executes(BuildOn(run), StepsOn(run), [], c, c', v) && r == Reported(run.outcome, v)
  {
    hide WellPlanned, Executes, Reported, StepsOf, ScheduleAll, BuildOf, AllKnown;
    StepsAreSound(run);
    AcceptedPlanExecutes(run.outcome, run.clock);
  }

  // ---------------------------------------------------------------------------
  // All executions, exactly

  /** Some parallel batch holds two workers that share a directory in which one has something
      to evict. */
  ghost predicate MayFail(run: Run, c: Cache)
    requires WellPlanned(run.outcome)
  {
    exists step :: step in StepsOn(run) && RacesIn(BuildOn(run), step, c)
  }

  lemma {:induction false} JobIndices(b: Build, first: seq<Handle>, then_: seq<Handle>, rest: seq<Handle>, j: Job,
                                      k: Job)
    requires DistinctBy(JobsOf(b, first + then_ + rest), DocumentTriple) && j in JobsOf(b, first)
    requires k in JobsOf(b, then_)
    ensures DocumentTriple(j) != DocumentTriple(k)
  {
    JobsAppend(b, first, then_);
    JobsAppend(b, first + then_, rest);
    var jobs := JobsOf(b, first + then_ + rest);
    var x :| 0 <= x < |JobsOf(b, first)| && JobsOf(b, first)[x] == j;
    var y :| 0 <= y < |JobsOf(b, then_)| && JobsOf(b, then_)[y] == k;
    assert jobs[x] == j && jobs[|JobsOf(b, first)| + y] == k;
  }

  lemma EarlierJobsDiffer(run: Run, k: nat, i: Job, j: Job)
    requires WellPlanned(run.outcome) && k < |StepsOn(run)|
    requires i in JobsOf(BuildOn(run), Flatten(BatchesOf(StepsOn(run)[..k])))
    requires j in JobsOf(BuildOn(run), StepsOn(run)[k].names)
    ensures DocumentTriple(i) != DocumentTriple(j)
  {
    hide WellPlanned, BuildOf, StepsOf, RunNames, AllKnown, AllSound;
    var (steps, batches) := (StepsOn(run), BatchesOf(StepsOn(run)));
    StepsAreSound(run);
    RunJobsAreBatch(run);
    assert BatchesOf(steps[..k]) == batches[..k];
    FlattenAt(batches, k);
    JobIndices(BuildOn(run), Flatten(batches[..k]), batches[k], Flatten(batches[k + 1..]), i, j);
  }

  /** The batches before a batch leave everything alone that its workers own. */
  lemma SameToEvict(run: Run, c: Cache, k: nat, j: Job, p: CachePath)
    requires WellPlanned(run.outcome) && Filed(Filing(run.outcome.survey), c) && k < |StepsOn(run)|
    requires j in JobsOf(BuildOn(run), StepsOn(run)[k].names)
    ensures ToEvict(CacheBefore(BuildOn(run), StepsOn(run), c, k), j, p) <==> ToEvict(c, j, p)
  {
    hide WellPlanned, BuildOf, StepsOf, Batch, Filing, Filed, StepsOn, BuildOn, ToEvict;
    var (b, steps, tau) := (BuildOn(run), StepsOn(run), Filing(run.outcome.survey));
    var ran := JobsOf(b, Flatten(BatchesOf(steps[..k])));
    PrefixIsBatch(run, k);
    RunKeepsFiled(tau, c, ran);
    forall i | 0 <= i < |ran| ensures DocumentTriple(ran[i]) != DocumentTriple(j) {
      EarlierJobsDiffer(run, k, ran[i], j);
    }
    OthersLeaveAlone(tau, c, ran, j, p);
  }

  lemma OthersLeaveAlone(tau: StorageKey -> Triple, c: Cache, ran: seq<Job>, j: Job, p: CachePath)
    requires Filed(tau, c) && Batch(tau, ran) && Filed(tau, RunCache(c, ran))
    requires forall i :: 0 <= i < |ran| ==> DocumentTriple(ran[i]) != DocumentTriple(j)
    ensures ToEvict(RunCache(c, ran), j, p) <==> ToEvict(c, j, p)
  {
    hide Batch, RunCache, Slug;
    if tau(p.key) == DocumentTriple(j) {
      SequentialByFootprint(tau, c, c, ran);
      assert At(RunCache(c, ran), p) == At(c, p);
    }
  }

  /** A race can be seen in the cache before the execution starts. */
  lemma RacesFromTheStart(run: Run, c: Cache)
    requires WellPlanned(run.outcome) && Filed(Filing(run.outcome.survey), c)
    ensures SomeRace(BuildOn(run), StepsOn(run), c) <==> MayFail(run, c)
  {
    hide WellPlanned, BuildOf, StepsOf, Filed, ToEvict, DirectoryOf;
    var (b, steps) := (BuildOn(run), StepsOn(run));
    forall k: nat | k < |steps| ensures RacesAt(b, steps, c, k) <==> RacesIn(b, steps[k], c) {
      var (jobs, before) := (JobsOf(b, steps[k].names), CacheBefore(b, steps, c, k));
      forall i, p | 0 <= i < |jobs| ensures ToEvict(before, jobs[i], p) <==> ToEvict(c, jobs[i], p) {
        SameToEvict(run, c, k, jobs[i], p);
      }
      SameRaces(before, c, jobs);
    }
    if SomeRace(b, steps, c) {
      var k: nat :| RacesAt(b, steps, c, k);
      assert steps[k] in steps;
    }
  }

  lemma SameRaces(a: Cache, c: Cache, jobs: seq<Job>)
    requires forall i, p :: 0 <= i < |jobs| ==> (ToEvict(a, jobs[i], p) <==> ToEvict(c, jobs[i], p))
    ensures Races(a, jobs) <==> Races(c, jobs)
  {
  }

  /** A successful execution reports, and leaves, what the sequential run does. */
  lemma SuccessIsSequential(run: Run, c: Cache, c': Cache, r: Result<Report, ExecutionError>)
    requires WellPlanned(run.outcome) && Filed(Filing(run.outcome.survey), c) && CanExecute(run, c, c', r)
    ensures r.Success? ==> r.value == ReportOn(run, c) && c' == RunCache(c, RunJobs(run))
    ensures r.Failure? ==> r.error == CacheIo && MayFail(run, c)
  {
    hide WellPlanned, BuildOf, StepsOf, Filed, AllSound, AllKnown, ReportFor, MayFail, Executes, SomeRace, Known,
         CanExecute;
    var (b, steps) := (BuildOn(run), StepsOn(run));
    StepsAreSound(run);
    ExecutesAre(run, c, c', r);
    var v :| Executes(b, steps, [], c, c', v) && r == Reported(run.outcome, v);
    ExecutesExactly(Filing(run.outcome.survey), b, steps, c);
    RacesFromTheStart(run, c);
    assert steps[..|steps|] == steps;
    if v.Failure? {
      assert Executes(b, steps, [], c, c', Failure(v.error));
    }
  }

  /** Every execution of an accepted plan, in every interleaving of its parallel batches, gives
      the sequential report and cache, or fails on a cache entry that vanished; and one that
      fails exists exactly when some parallel batch races. */
  lemma AcceptedExecutesExactly(run: Run, c: Cache)
    requires WellPlanned(run.outcome) && Filed(Filing(run.outcome.survey), c)
    ensures forall c', r :: CanExecute(run, c, c', r) ==>
                              if r.Success? then r.value == ReportOn(run, c) && c' == RunCache(c, RunJobs(run))
                              else r.error == CacheIo
    ensures (exists c', r :: CanExecute(run, c, c', r) && r.Failure?) <==> MayFail(run, c)
  {
    hide WellPlanned, ReportOn, RunJobs, Filed, AllSound, AllKnown, Executes, SomeRace, CanExecute, StepsOn, BuildOn,
         MayFail;
    forall c', r | CanExecute(run, c, c', r)
      ensures r.Success? ==> r.value == ReportOn(run, c) && c' == RunCache(c, RunJobs(run))
      ensures r.Failure? ==> r.error == CacheIo && MayFail(run, c)
    {
      SuccessIsSequential(run, c, c', r);
    }
    if MayFail(run, c) {
      var (b, steps) := (BuildOn(run), StepsOn(run));
      StepsAreSound(run);
      RacesFromTheStart(run, c);
      ExecutesExactly(Filing(run.outcome.survey), b, steps, c);
      var c', e :| Executes(b, steps, [], c, c', Failure(e));
      ExecutesAre(run, c, c', Failure(e));
      assert Reported(run.outcome, Failure(e)) == Failure(e);
      assert CanExecute(run, c, c', Failure(e));
    }
  }

  /** An execution, failed or not, leaves a cache in which every document lies where its key
      says and no two share a triple. */
  lemma ExecutionKeepsCache(run: Run, c: Cache, c': Cache, r: Result<Report, ExecutionError>)
    requires WellPlanned(run.outcome) && Filed(Filing(run.outcome.survey), c) && CanExecute(run, c, c', r)
    ensures Filed(Filing(run.outcome.survey), c') && (Inv(c) ==> Inv(c'))
  {
    hide WellPlanned, BuildOf, StepsOf, Filed, AllSound, AllKnown, ReportFor, RacesAt, Completed, SomeRace, Known,
         CanExecute, Inv;
    var (b, steps, tau) := (BuildOn(run), StepsOn(run), Filing(run.outcome.survey));
    StepsAreSound(run);
    ExecutesAre(run, c, c', r);
    var v :| Executes(b, steps, [], c, c', v) && r == Reported(run.outcome, v);
    if v.Success? {
      CompletedIsSequential(tau, b, steps, c, c', v.value);
      if Inv(c) {
        RunKeepsInv(c, JobsOf(b, Flatten(BatchesOf(steps))));
      }
    } else {
      InterruptedRaced(tau, b, steps, c, c', v.error);
    }
  }

  lemma QuietIsSafe(run: Run, c: Cache)
    requires WellPlanned(run.outcome) && NothingToEvict(c, RunJobs(run))
    ensures !MayFail(run, c)
  {
    hide WellPlanned, BuildOf, StepsOf, ToEvict;
    var (b, steps) := (BuildOn(run), StepsOn(run));
    StepsAreSound(run);
    forall step | step in steps ensures !RacesIn(b, step, c) {
      var k :| 0 <= k < |steps| && steps[k] == step;
      forall j | j in JobsOf(b, step.names) ensures j in RunJobs(run) {
        JobsWithin(b, steps, k, j);
      }
    }
  }

  /** A plan that finds nothing to evict executes without failing. */
  lemma QuietExecution(run: Run, c: Cache, c': Cache, r: Result<Report, ExecutionError>)
    requires WellPlanned(run.outcome) && Filed(Filing(run.outcome.survey), c) && NothingToEvict(c, RunJobs(run))
    requires CanExecute(run, c, c', r)
    ensures r == Success(ReportOn(run, c)) && c' == RunCache(c, RunJobs(run))
  {
    hide WellPlanned, ReportOn, Filed, CanExecute, NothingToEvict, MayFail;
    QuietIsSafe(run, c);
    SuccessIsSequential(run, c, c', r);
  }

  /** A plan that does not race can be executed, with the sequential outcome. */
  lemma QuietRunExists(run: Run, c: Cache)
    requires WellPlanned(run.outcome) && Filed(Filing(run.outcome.survey), c) && !MayFail(run, c)
    ensures CanExecute(run, c, RunCache(c, RunJobs(run)), Success(ReportOn(run, c)))
  {
    hide WellPlanned, BuildOf, StepsOf, Filed, AllSound, RacesAt, Completed, Known, CanExecute, ReportOn, RunJobs;
    var (b, steps) := (BuildOn(run), StepsOn(run));
    StepsAreSound(run);
    RacesFromTheStart(run, c);
    var v := QuietBatchesRun(Filing(run.outcome.survey), b, steps, c, |steps|);
    assert steps[..|steps|] == steps;
    var c' := CacheBefore(b, steps, c, |steps|);
    RunsThrough(b, steps, c, c', v);
    ExecutesAre(run, c, c', Success(ReportFor(run.outcome, v)));
    assert Reported(run.outcome, Success(v)) == Success(ReportFor(run.outcome, v));
    SuccessIsSequential(run, c, c', Success(ReportFor(run.outcome, v)));
  }

  // ---------------------------------------------------------------------------
  // Histories

  ghost predicate Happened(run: Run, c: Cache, c': Cache)
    requires WellPlanned(run.outcome)
  {
    exists r :: CanExecute(run, c, c', r)
  }

  /** Accepted plans executed one after the other under one survey, from an empty cache; each
      execution may have failed. */
  ghost predicate History(survey: Survey, runs: seq<Run>, caches: seq<Cache>) {
    && |caches| == |runs| + 1 && caches[0] == map[]
    && forall i :: 0 <= i < |runs| ==>
                     && WellPlanned(runs[i].outcome) && runs[i].outcome.survey == survey
                     && Happened(runs[i], caches[i], caches[i + 1])
  }

  lemma {:induction false} HistoryIsFiled(survey: Survey, runs: seq<Run>, caches: seq<Cache>, k: nat)
    requires History(survey, runs, caches) && k < |caches|
    ensures Inv(caches[k]) && Filed(Filing(survey), caches[k])
  {
    hide WellPlanned, CanExecute;
    if k > 0 {
      HistoryIsFiled(survey, runs, caches, k - 1);
      assert Happened(runs[k - 1], caches[k - 1], caches[k]);
      var r :| CanExecute(runs[k - 1], caches[k - 1], caches[k], r);
      ExecutionKeepsCache(runs[k - 1], caches[k - 1], caches[k], r);
    }
  }

  lemma {:induction false} ArtifactsAreResults(b: Build, c: Cache, names: seq<Handle>, key: StorageKey)
    requires Known(b.index, names) && key in ArtifactsOf(ResultsOf(b, c, names))
    ensures ArtifactsOf(ResultsOf(b, c, names))[key].result in RunResults(c, JobsOf(b, names))
  {
    var (front, last) := (names[..|names| - 1], names[|names| - 1]);
    var r := ResultAt(b, CacheAfter(b, c, front), last);
    assert ResultsOf(b, c, names)[..|front|] == ResultsOf(b, c, front);
    RunResultsAppend(c, JobsOf(b, front), JobsAt(b, last));
    if r.artifact.None? || r.artifact.value.result.document.storageKey != key {
      ArtifactsAreResults(b, c, front, key);
    }
  }

  ghost predicate AllWith(report: Report, d: Disposition) {
    forall k :: k in report.artifacts ==> report.artifacts[k].result.disposition == d
  }

  lemma ReportedWith(run: Run, c: Cache, d: Disposition)
    requires WellPlanned(run.outcome)
    requires forall i :: 0 <= i < |RunJobs(run)| ==> RunResults(c, RunJobs(run))[i].disposition == d
    ensures AllWith(ReportOn(run, c), d)
  {
    hide WellPlanned, BuildOf;
    AcceptedPlanExecutes(run.outcome, run.clock);
    var report := ReportOn(run, c);
    forall k | k in report.artifacts ensures report.artifacts[k].result.disposition == d {
      ArtifactsAreResults(BuildOn(run), c, RunNames(run.outcome), k);
      var i :| 0 <= i < |RunJobs(run)| && RunResults(c, RunJobs(run))[i] == report.artifacts[k].result;
    }
  }

  /** On an empty cache no execution fails, and every artifact is built. */
  lemma ColdExecution(run: Run, c': Cache, r: Result<Report, ExecutionError>)
    requires WellPlanned(run.outcome) && CanExecute(run, map[], c', r)
    ensures r == Success(ReportOn(run, map[])) && AllWith(r.value, Executed)
  {
    hide WellPlanned, ReportOn, CanExecute, RunJobs;
    QuietExecution(run, map[], c', r);
    forall i | 0 <= i < |RunJobs(run)| ensures RunResults(map[], RunJobs(run))[i].disposition == Executed {
      PlannedColdRun(run, i);
    }
    ReportedWith(run, map[], Executed);
  }

  lemma SettledIsQuiet(c: Cache, jobs: seq<Job>)
    requires Inv(c) && forall j :: j in jobs ==> Settled(c, j.document)
    ensures NothingToEvict(c, jobs)
  {
    forall j, p | j in jobs ensures !ToEvict(c, j, p) {
      assert Settled(c, j.document);
    }
  }

  /** After any history, once an accepted plan has been executed, executing it again, however
      long things take, cannot fail, reuses every artifact and leaves the cache alone. */
  lemma RepeatedExecution(survey: Survey, runs: seq<Run>, caches: seq<Cache>, run: Run, again: Run, c: Cache, c': Cache,
                          report: Report, r: Result<Report, ExecutionError>)
    requires History(survey, runs, caches)
    requires WellPlanned(run.outcome) && run.outcome.survey == survey && again.outcome == run.outcome
    requires CanExecute(run, caches[|runs|], c, Success(report)) && CanExecute(again, c, c', r)
    ensures r == Success(ReportOn(again, c)) && AllWith(r.value, Reused) && c' == c
  {
    hide WellPlanned, ReportOn, CanExecute, RunJobs, Filed, Inv, AllWith;
    var start := caches[|runs|];
    HistoryIsFiled(survey, runs, caches, |runs|);
    SuccessIsSequential(run, start, c, Success(report));
    ExecutionKeepsCache(run, start, c, Success(report));
    PlannedWarmRun(start, run, again);
    SettledIsQuiet(c, RunJobs(again));
    QuietExecution(again, c, c', r);
    ReportedWith(again, c, Reused);
  }

  // ---------------------------------------------------------------------------
  // One batch of an accepted plan

  /** The cache before one batch of an accepted run after some history, when no batch before
      it has failed. */
  ghost predicate AtBatch(survey: Survey, runs: seq<Run>, caches: seq<Cache>, run: Run, k: nat, c: Cache) {
    && History(survey, runs, caches) && WellPlanned(run.outcome) && run.outcome.survey == survey
    && k < |StepsOn(run)| && c == CacheBefore(BuildOn(run), StepsOn(run), caches[|runs|], k)
  }

  lemma BatchStart(survey: Survey, runs: seq<Run>, caches: seq<Cache>, run: Run, k: nat, c: Cache)
    requires AtBatch(survey, runs, caches, run, k, c)
    ensures Sound(Filing(survey), BuildOn(run), StepsOn(run)[k]) && Filed(Filing(survey), c)
  {
    hide WellPlanned, BuildOf, StepsOf, Sound, Filed, Happened;
    var (b, steps, ran) := (BuildOn(run), StepsOn(run), Flatten(BatchesOf(StepsOn(run)[..k])));
    HistoryIsFiled(survey, runs, caches, |runs|);
    StepsAreSound(run);
    PrefixIsBatch(run, k);
    RunKeepsFiled(Filing(survey), caches[|runs|], JobsOf(b, ran));
  }

  /** Any interleaving of the workers of any batch of any accepted plan, after any history
      under the same survey, that lets every worker finish ends as the sequential run does. */
  lemma PlannedBatchIsConfluent(survey: Survey, runs: seq<Run>, caches: seq<Cache>, run: Run, k: nat, c: Cache,
                                states: seq<State>)
    requires AtBatch(survey, runs, caches, run, k, c)
    requires var jobs := JobsOf(BuildOn(run), StepsOn(run)[k].names);
             Trace(c, jobs, states) && AllDone(jobs, states[|states| - 1])
    ensures var (jobs, last) := (JobsOf(BuildOn(run), StepsOn(run)[k].names), states[|states| - 1]);
            && last.cache == RunCache(c, jobs)
            && forall i :: 0 <= i < |last.workers| ==> last.workers[i] == Done(RunResults(c, jobs)[i])
  {
    BatchStart(survey, runs, caches, run, k, c);
    BatchIsConfluent(Filing(survey), c, JobsOf(BuildOn(run), StepsOn(run)[k].names), states);
  }

  /** A batch of an accepted plan can fail exactly when its wave is a parallel one and two of
      its workers share a directory in which one has something to evict. */
  lemma PlannedBatchFailsIffRace(survey: Survey, runs: seq<Run>, caches: seq<Cache>, run: Run, k: nat, c: Cache)
    requires AtBatch(survey, runs, caches, run, k, c)
    ensures var (b, step) := (BuildOn(run), StepsOn(run)[k]);
            && Known(b.index, step.names)
            && ((exists c', e :: BatchRuns(b, step, c, c', Failure(e))) <==>
                  step.parallel && Races(c, JobsOf(b, step.names)))
  {
    hide WellPlanned, BuildOf, StepsOf, Filed, Happened, BatchRuns;
    var (b, step) := (BuildOn(run), StepsOn(run)[k]);
    BatchStart(survey, runs, caches, run, k, c);
    if c', e :| BatchRuns(b, step, c, c', Failure(e)) {
      FailedBatchRaced(Filing(survey), b, step, c, c', e);
    }
    if RacesIn(b, step, c) {
      var c' := RacingBatchCanFail(Filing(survey), b, step, c);
    }
  }
}
