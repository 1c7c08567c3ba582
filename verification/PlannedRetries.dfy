/** Trying again: what the failed executions of an accepted plan leave behind, and how many
    there can be. */
module PlannedRetries {
  import opened Types
  import opened Planner
  import opened Resolution
  import opened ArtifactCache
  import opened CacheRace
  import opened Scheduler
  import opened Execution
  import opened ExecutionRaces
  import opened PlannedOutcome
  import opened PlannedCache
  import opened PlannedExecution
  import opened PlannedRaces
  import opened PlannedReplay
  import Lowering

  // ---------------------------------------------------------------------------
  // One execution

  lemma PlannedParts(run: Run, k: nat)
    requires WellPlanned(run.outcome) && k < |StepsOn(run)|
    ensures var (b, steps) := (BuildOn(run), StepsOn(run));
            && RunJobs(run) == JobsOf(b, Flatten(BatchesOf(steps[..k]))) + JobsOf(b, steps[k].names)
                               + JobsOf(b, Flatten(BatchesOf(steps)[k + 1..]))
            && Batch(Filing(run.outcome.survey), RunJobs(run))
  {
    hide WellPlanned, BuildOf, StepsOf, AllSound, AllKnown, Batch, Independent, JobsOf;
    StepsAreSound(run);
    RunJobsAreBatch(run);
    JobsAround(BuildOn(run), StepsOn(run), k);
  }

  /** A failed execution got as far as some batch, which evicted a document of one artifact
      under another that shares its directory. */
  ghost predicate FailedAt(run: Run, c: Cache, c': Cache, k: nat, mid: Cache)
    requires WellPlanned(run.outcome)
  {
    && k < |StepsOn(run)| && mid == CacheBefore(BuildOn(run), StepsOn(run), c, k)
    && Known(BuildOn(run).index, StepsOn(run)[k].names) && Filed(Filing(run.outcome.survey), mid)
    && Sound(Filing(run.outcome.survey), BuildOn(run), StepsOn(run)[k])
    && BatchRuns(BuildOn(run), StepsOn(run)[k], mid, c', Failure(CacheIo))
  }

  lemma FailureHasBatch(run: Run, c: Cache, c': Cache, r: Result<Report, ExecutionError>) returns (k: nat, mid: Cache)
    requires WellPlanned(run.outcome) && Filed(Filing(run.outcome.survey), c)
    requires CanExecute(run, c, c', r) && r.Failure?
    ensures FailedAt(run, c, c', k, mid)
  {
    hide WellPlanned, BuildOf, StepsOf, Filed, Sound, BatchRuns, Completed, CanExecute, ReportFor, Known, MayFail;
    var (b, steps, tau) := (BuildOn(run), StepsOn(run), Filing(run.outcome.survey));
    StepsAreSound(run);
    ExecutesAre(run, c, c', r);
    SuccessIsSequential(run, c, c', r);
    var v :| Executes(b, steps, [], c, c', v) && r == Reported(run.outcome, v);
    var front;
    k, mid, front :| k < |steps| && Completed(b, steps[..k], c, mid, front)
                     && BatchRuns(b, steps[k], mid, c', Failure(v.error));
    CompletedIsSequential(tau, b, steps[..k], c, mid, front);
  }

  lemma FailureLeaves(run: Run, c: Cache, c': Cache, k: nat, mid: Cache, j: Job)
    requires WellPlanned(run.outcome) && Filed(Filing(run.outcome.survey), c) && FailedAt(run, c, c', k, mid)
    requires j in RunJobs(run)
    ensures Left(Filing(run.outcome.survey), c, j, c')
  {
    hide WellPlanned, BuildOf, StepsOf, Filed, Sound, BatchRuns, Left, Batch, BatchLeft, RunJobs, JobsOf, Filing;
    var (b, steps, tau) := (BuildOn(run), StepsOn(run), Filing(run.outcome.survey));
    var i, m, p := FailedBatchLeaves(tau, b, steps[k], mid, c', CacheIo);
    PlannedParts(run, k);
    LeftAround(tau, c, mid, c', JobsOf(b, Flatten(BatchesOf(steps[..k]))), JobsOf(b, steps[k].names),
               JobsOf(b, Flatten(BatchesOf(steps)[k + 1..])), j);
  }

  /** An execution, failed or not, leaves every artifact of its plan done or as it was, but for
      evictions it had to make. */
  lemma ExecutionLeaves(run: Run, c: Cache, c': Cache, r: Result<Report, ExecutionError>, j: Job)
    requires WellPlanned(run.outcome) && Filed(Filing(run.outcome.survey), c) && CanExecute(run, c, c', r)
    requires j in RunJobs(run)
    ensures Left(Filing(run.outcome.survey), c, j, c')
  {
    hide WellPlanned, Filed, Left, RunJobs, CanExecute, Filing, FailedAt, Batch, Independent, ReportOn, MayFail,
         RunCache;
    if r.Success? {
      SuccessIsSequential(run, c, c', r);
      RunJobsAreBatch(run);
      var i :| 0 <= i < |RunJobs(run)| && RunJobs(run)[i] == j;
      RunLeaves(Filing(run.outcome.survey), c, RunJobs(run), i);
    } else {
      var k, mid := FailureHasBatch(run, c, c', r);
      FailureLeaves(run, c, c', k, mid, j);
    }
  }

  lemma JobAsking(run: Run, q: Requirement) returns (j: Job)
    requires WellPlanned(run.outcome) && Closed(run.outcome) && q in run.outcome.plan.requirements
    ensures j in RunJobs(run) && j.document == DocumentFor(run.outcome, q)
  {
    hide WellPlanned, DocumentFor, BuildOf;
    NodeIsRun(run.outcome, run.clock, Lowering.ArtifactNode(q));
    var k := JobAt(run, RunNames(run.outcome), q);
    j := RunJobs(run)[k];
  }

  // ---------------------------------------------------------------------------
  // How often an execution can fail

  /** The outdated documents that one artifact of the plan is to evict from a directory which
      another artifact of the same, parallel wave reads. */
  ghost function Endangered(o: Outcome, c: Cache): set<CachePath>
    requires Closed(o)
  {
    set p | p in c && IsEndangered(o, c, p)
  }

  ghost predicate IsEndangered(o: Outcome, c: Cache, p: CachePath)
    requires Closed(o) && p in c
  {
    exists q, q' :: Neighbours(o, q, q') && Sibling(p, c[p], DocumentFor(o, q))
  }

  lemma EndangeredIsStale(o: Outcome, c: Cache)
    requires Closed(o)
    ensures HasStaleNeighbour(o, c) <==> Endangered(o, c) != {}
  {
    hide ParallelWave, Slug, Lowering.KeyOf, Sibling, DocumentFor;
    if HasStaleNeighbour(o, c) {
      var q, q' :| StaleNeighbour(o, c, q, q');
      var p :| p in c && Sibling(p, c[p], DocumentFor(o, q));
      assert IsEndangered(o, c, p);
      assert p in Endangered(o, c);
    }
    if p :| p in Endangered(o, c) {
      var q, q' :| Neighbours(o, q, q') && Sibling(p, c[p], DocumentFor(o, q));
      assert StaleNeighbour(o, c, q, q');
    }
  }

  /** An execution can fail exactly where there are such documents. */
  lemma EndangeredExactly(run: Run, c: Cache)
    requires WellPlanned(run.outcome) && Closed(run.outcome) && Filed(Filing(run.outcome.survey), c)
    ensures (exists c', r :: CanExecute(run, c, c', r) && r.Failure?) <==> Endangered(run.outcome, c) != {}
  {
    hide WellPlanned, CanExecute, HasStaleNeighbour, Filed, Endangered;
    FailsExactly(run, c);
    EndangeredIsStale(run.outcome, c);
  }

  lemma EndangeredBefore(run: Run, c: Cache, c': Cache, r: Result<Report, ExecutionError>, p: CachePath)
    requires WellPlanned(run.outcome) && Closed(run.outcome) && Filed(Filing(run.outcome.survey), c)
    requires CanExecute(run, c, c', r) && p in Endangered(run.outcome, c')
    ensures p in Endangered(run.outcome, c)
  {
    hide WellPlanned, Filed, Left, RunJobs, CanExecute, Filing, ParallelWave, Slug, Lowering.KeyOf, Sibling,
         DocumentFor;
    var o := run.outcome;
    var q, q' :| Neighbours(o, q, q') && Sibling(p, c'[p], DocumentFor(o, q));
    var j := JobAsking(run, q);
    ExecutionLeaves(run, c, c', r, j);
    ExecutionKeepsCache(run, c, c', r);
    NothingNewToEvict(Filing(o.survey), c, j, c', p);
    assert IsEndangered(o, c, p);
  }

  lemma FailureEndangers(run: Run, c: Cache, c': Cache, r: Result<Report, ExecutionError>) returns (p: CachePath)
    requires WellPlanned(run.outcome) && Closed(run.outcome) && Filed(Filing(run.outcome.survey), c)
    requires CanExecute(run, c, c', r) && r.Failure?
    ensures p in Endangered(run.outcome, c) && p !in c'
  {
    hide WellPlanned, Filed, CanExecute, Filing, Neighbours, Sibling, DocumentFor, BuildOn, StepsOn, BatchRuns, Sound,
         DirectoryOf, BatchLeft, JobsOf, CacheBefore;
    var o := run.outcome;
    var k, mid := FailureHasBatch(run, c, c', r);
    var (b, step) := (BuildOn(run), StepsOn(run)[k]);
    var i, m;
    i, m, p := FailedBatchLeaves(Filing(o.survey), b, step, mid, c', CacheIo);
    var jobs := JobsOf(b, step.names);
    assert step in StepsOn(run) && jobs[m] in jobs;
    SameToEvict(run, c, k, jobs[m], p);
    var q, q' := JobsAreNeighbours(run, step, i, m);
    assert IsEndangered(o, c, p);
  }

  /** Every execution that fails makes the endangered documents fewer, and none makes them more. */
  lemma FailureShrinks(run: Run, c: Cache, c': Cache, r: Result<Report, ExecutionError>)
    requires WellPlanned(run.outcome) && Closed(run.outcome) && Filed(Filing(run.outcome.survey), c)
    requires CanExecute(run, c, c', r)
    ensures Endangered(run.outcome, c') <= Endangered(run.outcome, c)
    ensures r.Failure? ==> Endangered(run.outcome, c') < Endangered(run.outcome, c)
  {
    hide WellPlanned, Filed, CanExecute, Filing, IsEndangered;
    forall p | p in Endangered(run.outcome, c') ensures p in Endangered(run.outcome, c) {
      EndangeredBefore(run, c, c', r, p);
    }
    if r.Failure? {
      var p := FailureEndangers(run, c, c', r);
    }
  }

  // ---------------------------------------------------------------------------
  // Attempts

  datatype Attempt = Attempt(clock: Handle -> nat, result: Result<Report, ExecutionError>)

  /** The plan is executed again and again, however long things take each time. */
  ghost predicate Attempts(o: Outcome, attempts: seq<Attempt>, caches: seq<Cache>)
    requires WellPlanned(o)
  {
    && |caches| == |attempts| + 1
    && forall i :: 0 <= i < |attempts| ==>
                     CanExecute(Run(o, attempts[i].clock), caches[i], caches[i + 1], attempts[i].result)
  }

  function Failures(attempts: seq<Attempt>): nat {
    if attempts == [] then 0
    else Failures(attempts[..|attempts| - 1]) + if attempts[|attempts| - 1].result.Failure? then 1 else 0
  }

  lemma {:induction false} AttemptsKeepFiled(o: Outcome, attempts: seq<Attempt>, caches: seq<Cache>, k: nat)
    requires WellPlanned(o) && Attempts(o, attempts, caches) && Filed(Filing(o.survey), caches[0]) && k < |caches|
    ensures Filed(Filing(o.survey), caches[k])
  {
    hide WellPlanned, Filed, CanExecute, Filing;
    if k > 0 {
      AttemptsKeepFiled(o, attempts, caches, k - 1);
      var a := attempts[k - 1];
      ExecutionKeepsCache(Run(o, a.clock), caches[k - 1], caches[k], a.result);
    }
  }

  lemma {:induction false} EachFailureCosts(o: Outcome, attempts: seq<Attempt>, caches: seq<Cache>)
    requires WellPlanned(o) && Closed(o) && Attempts(o, attempts, caches) && Filed(Filing(o.survey), caches[0])
    ensures Failures(attempts) + |Endangered(o, caches[|attempts|])| <= |Endangered(o, caches[0])|
    decreases |attempts|
  {
    hide WellPlanned, Filed, CanExecute, Filing, Endangered;
    if attempts != [] {
      var m := |attempts| - 1;
      var a := attempts[m];
      EachFailureCosts(o, attempts[..m], caches[..m + 1]);
      AttemptsKeepFiled(o, attempts, caches, m);
      FailureShrinks(Run(o, a.clock), caches[m], caches[m + 1], a.result);
      SmallerSets(Endangered(o, caches[m + 1]), Endangered(o, caches[m]));
    }
  }

  lemma SmallerSets<T>(a: set<T>, b: set<T>)
    requires a <= b
    ensures |a| <= |b| && (a < b ==> |a| < |b|)
  {
    assert b == a + (b - a);
    if a < b {
      var x :| x in b - a;
    }
  }

  /** However often a plan is executed, it fails at most once for each document that was
      endangered at first; once it has failed that often, it cannot fail any more. */
  lemma FailuresAreBounded(o: Outcome, attempts: seq<Attempt>, caches: seq<Cache>, clock: Handle -> nat, c': Cache,
                           r: Result<Report, ExecutionError>)
    requires WellPlanned(o) && Closed(o) && Attempts(o, attempts, caches) && Filed(Filing(o.survey), caches[0])
    ensures Failures(attempts) <= |Endangered(o, caches[0])|
    ensures Failures(attempts) == |Endangered(o, caches[0])| && CanExecute(Run(o, clock), caches[|attempts|], c', r) ==>
              r.Success?
  {
    hide WellPlanned, Filed, CanExecute, Filing, Endangered;
    EachFailureCosts(o, attempts, caches);
    var c := caches[|attempts|];
    AttemptsKeepFiled(o, attempts, caches, |attempts|);
    if CanExecute(Run(o, clock), c, c', r) && r.Failure? {
      FailureShrinks(Run(o, clock), c, c', r);
      SmallerSets(Endangered(o, c'), Endangered(o, c));
    }
  }

  // ---------------------------------------------------------------------------
  // What an execution that succeeds in the end leaves

  /** The same documents at the same paths, times aside. */
  ghost predicate SameButTimes(a: Cache, b: Cache) { forall p :: Bare(At(a, p)) == Bare(At(b, p)) }

  lemma SameJobs(o: Outcome, clock: Handle -> nat, clock': Handle -> nat)
    requires WellPlanned(o)
    ensures var (jobs, jobs') := (RunJobs(Run(o, clock)), RunJobs(Run(o, clock')));
            |jobs| == |jobs'| && forall i :: 0 <= i < |jobs| ==> jobs[i].document == jobs'[i].document
  {
    hide WellPlanned, BuildOf;
    WellPlannedIsClosed(o);
    SameDocuments(o, clock, clock', RunNames(o));
  }

  /** What no artifact of a plan owns is not touched. */
  lemma OthersStay(run: Run, c: Cache, c': Cache, r: Result<Report, ExecutionError>, p: CachePath)
    requires WellPlanned(run.outcome) && Filed(Filing(run.outcome.survey), c) && CanExecute(run, c, c', r)
    requires forall i :: 0 <= i < |RunJobs(run)| ==> !Owns(Filing(run.outcome.survey), RunJobs(run)[i], p)
    ensures At(c', p) == At(c, p)
  {
    hide WellPlanned, Filed, CanExecute, Filing, RunJobs, RunCache, Batch, Independent, Owns, FailedAt, ReportOn,
         MayFail;
    var tau := Filing(run.outcome.survey);
    if r.Success? {
      SuccessIsSequential(run, c, c', r);
      RunJobsAreBatch(run);
      SequentialByFootprint(tau, c, c, RunJobs(run));
    } else {
      var k, mid := FailureHasBatch(run, c, c', r);
      FailureSpares(run, c, c', k, mid, p);
    }
  }

  lemma FailureSpares(run: Run, c: Cache, c': Cache, k: nat, mid: Cache, p: CachePath)
    requires WellPlanned(run.outcome) && Filed(Filing(run.outcome.survey), c) && FailedAt(run, c, c', k, mid)
    requires forall i :: 0 <= i < |RunJobs(run)| ==> !Owns(Filing(run.outcome.survey), RunJobs(run)[i], p)
    ensures At(c', p) == At(c, p)
  {
    hide WellPlanned, BuildOf, StepsOf, Filed, Sound, BatchRuns, Left, Batch, RunJobs, JobsOf, Filing, Owns, RunCache;
    var (b, steps, tau) := (BuildOn(run), StepsOn(run), Filing(run.outcome.survey));
    var (first, then_) := (JobsOf(b, Flatten(BatchesOf(steps[..k]))), JobsOf(b, steps[k].names));
    var rest := JobsOf(b, Flatten(BatchesOf(steps)[k + 1..]));
    var i, m, q := FailedBatchLeaves(tau, b, steps[k], mid, c', CacheIo);
    PlannedParts(run, k);
    PartsAreBatches(tau, first, then_, rest);
    assert forall x :: 0 <= x < |first| ==> RunJobs(run)[x] == first[x];
    assert forall x :: 0 <= x < |then_| ==> RunJobs(run)[|first| + x] == then_[x];
    SequentialByFootprint(tau, c, c, first);
  }

  /** Running a plan in turn on two caches leads, times aside, to the same one if it does so in
      every footprint and elsewhere the caches agree. */
  lemma SameRuns(tau: StorageKey -> Triple, c: Cache, c': Cache, jobs: seq<Job>, jobs': seq<Job>)
    requires Batch(tau, jobs) && Batch(tau, jobs') && Filed(tau, c) && Filed(tau, c') && |jobs| == |jobs'|
    requires forall i :: 0 <= i < |jobs| ==> jobs[i].document == jobs'[i].document
    requires forall i, p :: 0 <= i < |jobs| && Owns(tau, jobs[i], p) ==>
               Bare(At(After(c, jobs[i].document, jobs[i].elapsedMs), p))
               == Bare(At(After(c', jobs[i].document, jobs'[i].elapsedMs), p))
    requires forall p :: (forall i :: 0 <= i < |jobs| ==> !Owns(tau, jobs[i], p)) ==> At(c, p) == At(c', p)
    ensures SameButTimes(RunCache(c, jobs), RunCache(c', jobs'))
  {
    hide RunCache, After, Bare, Batch, Filed;
    SequentialByFootprint(tau, c, c, jobs);
    SequentialByFootprint(tau, c', c', jobs');
    forall p ensures Bare(At(RunCache(c, jobs), p)) == Bare(At(RunCache(c', jobs'), p)) {
      if i :| 0 <= i < |jobs| && Owns(tau, jobs[i], p) {
        assert Owns(tau, jobs'[i], p);
      } else {
        assert forall i :: 0 <= i < |jobs| ==> !Owns(tau, jobs[i], p) && !Owns(tau, jobs'[i], p);
      }
    }
  }

  lemma OneIsRecovered(o: Outcome, a: Attempt, c: Cache, c': Cache, clock: Handle -> nat, i: nat, p: CachePath)
    requires WellPlanned(o) && Filed(Filing(o.survey), c) && CanExecute(Run(o, a.clock), c, c', a.result)
    requires i < |RunJobs(Run(o, clock))| && Owns(Filing(o.survey), RunJobs(Run(o, clock))[i], p)
    ensures var j := RunJobs(Run(o, clock))[i];
            Bare(At(After(c, j.document, j.elapsedMs), p)) == Bare(At(After(c', j.document, j.elapsedMs), p))
  {
    hide WellPlanned, Filed, CanExecute, Filing, RunJobs, Left, After, Bare, Independent;
    var run := Run(o, a.clock);
    SameJobs(o, clock, a.clock);
    var (j, done) := (RunJobs(Run(o, clock))[i], RunJobs(run)[i]);
    ExecutionLeaves(run, c, c', a.result, done);
    ExecutionKeepsCache(run, c, c', a.result);
    RunJobsAreBatch(run);
    LeftIsRecovered(Filing(o.survey), c, done, c', p, j.elapsedMs, j.elapsedMs);
  }

  /** Whether an execution fails or not, running the plan in turn afterwards leads, times aside,
      to where it leads without that execution. */
  lemma ExecutionIsRecovered(o: Outcome, a: Attempt, c: Cache, c': Cache, clock: Handle -> nat)
    requires WellPlanned(o) && Filed(Filing(o.survey), c) && CanExecute(Run(o, a.clock), c, c', a.result)
    ensures SameButTimes(RunCache(c, RunJobs(Run(o, clock))), RunCache(c', RunJobs(Run(o, clock))))
  {
    hide WellPlanned, Filed, CanExecute, Filing, RunJobs, RunCache, Batch, Independent, After, Bare, SameButTimes;
    var (run, again, tau) := (Run(o, a.clock), Run(o, clock), Filing(o.survey));
    var jobs := RunJobs(again);
    ExecutionKeepsCache(run, c, c', a.result);
    RunJobsAreBatch(again);
    forall i, p | 0 <= i < |jobs| && Owns(tau, jobs[i], p)
      ensures Bare(At(After(c, jobs[i].document, jobs[i].elapsedMs), p))
              == Bare(At(After(c', jobs[i].document, jobs[i].elapsedMs), p))
    {
      OneIsRecovered(o, a, c, c', clock, i, p);
    }
    SameJobs(o, clock, a.clock);
    forall p | forall i :: 0 <= i < |jobs| ==> !Owns(tau, jobs[i], p) ensures At(c, p) == At(c', p) {
      assert forall i :: 0 <= i < |RunJobs(run)| ==> !Owns(tau, RunJobs(run)[i], p);
      OthersStay(run, c, c', a.result, p);
    }
    SameRuns(tau, c, c', jobs, jobs);
  }

  /** And how long things take makes no difference. */
  lemma TimesDoNotMatter(o: Outcome, c: Cache, clock: Handle -> nat, clock': Handle -> nat)
    requires WellPlanned(o) && Filed(Filing(o.survey), c)
    ensures SameButTimes(RunCache(c, RunJobs(Run(o, clock))), RunCache(c, RunJobs(Run(o, clock'))))
  {
    hide WellPlanned, Filed, Filing, RunJobs, RunCache, Independent, After, Bare, SameButTimes;
    var tau := Filing(o.survey);
    var (jobs, jobs') := (RunJobs(Run(o, clock)), RunJobs(Run(o, clock')));
    SameJobs(o, clock, clock');
    RunJobsAreBatch(Run(o, clock));
    RunJobsAreBatch(Run(o, clock'));
    forall i, p | 0 <= i < |jobs| && Owns(tau, jobs[i], p)
      ensures Bare(At(After(c, jobs[i].document, jobs[i].elapsedMs), p))
              == Bare(At(After(c, jobs[i].document, jobs'[i].elapsedMs), p))
    {
      UntouchedIsLeft(tau, c, jobs[i], c);
      LeftIsRecovered(tau, c, jobs[i], c, p, jobs[i].elapsedMs, jobs'[i].elapsedMs);
    }
    SameRuns(tau, c, c, jobs, jobs');
  }

  lemma {:induction false} AttemptsAreRecovered(o: Outcome, attempts: seq<Attempt>, caches: seq<Cache>, k: nat,
                                                clock: Handle -> nat)
    requires WellPlanned(o) && Attempts(o, attempts, caches) && Filed(Filing(o.survey), caches[0]) && k < |caches|
    ensures SameButTimes(RunCache(caches[0], RunJobs(Run(o, clock))), RunCache(caches[k], RunJobs(Run(o, clock))))
  {
    hide WellPlanned, Filed, CanExecute, Filing, RunJobs, RunCache, Bare;
    if k > 0 {
      AttemptsAreRecovered(o, attempts, caches, k - 1, clock);
      AttemptsKeepFiled(o, attempts, caches, k - 1);
      ExecutionIsRecovered(o, attempts[k - 1], caches[k - 1], caches[k], clock);
    }
  }

  /** Failed executions leave no trace: when an attempt succeeds, the cache holds, times aside,
      what running the plan in turn on the cache before the first attempt gives. */
  lemma RetriesLeaveNoTrace(o: Outcome, attempts: seq<Attempt>, caches: seq<Cache>, clock: Handle -> nat)
    requires WellPlanned(o) && Attempts(o, attempts, caches) && Filed(Filing(o.survey), caches[0])
    requires attempts != [] && attempts[|attempts| - 1].result.Success?
    ensures SameButTimes(caches[|attempts|], RunCache(caches[0], RunJobs(Run(o, clock))))
  {
    hide WellPlanned, Filed, CanExecute, Filing, RunJobs, RunCache, Bare, ReportOn, MayFail;
    var m := |attempts| - 1;
    var a := attempts[m];
    AttemptsKeepFiled(o, attempts, caches, m);
    SuccessIsSequential(Run(o, a.clock), caches[m], caches[m + 1], a.result);
    AttemptsAreRecovered(o, attempts, caches, m, a.clock);
    TimesDoNotMatter(o, caches[0], a.clock, clock);
  }
}
