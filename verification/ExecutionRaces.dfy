/** Executions as relations: which outcomes the interleavings of the parallel batches allow,
    for batches whose artifacts have triples of their own. */
module ExecutionRaces {
  import opened Types
  import opened Planner
  import opened ArtifactCache
  import opened CacheRace
  import opened Scheduler
  import opened Execution

  // ---------------------------------------------------------------------------
  // What an execution's error means, for any build

  lemma BatchFailure(b: Build, step: Step, c: Cache, c': Cache, e: ExecutionError)
    requires Known(b.index, step.names) && BatchRuns(b, step, c, c', Failure(e))
    ensures !e.MissingDependency?
    ensures e.UnknownArtifactNode? ==> e.node in step.names && !Resolvable(b, e.node)
    ensures e.CacheIo? ==> step.parallel && CanFail(c, JobsOf(b, step.names))
  {
    if step.parallel {
      var states: seq<State> :| Interleaves(b, step.names, c, c', Failure(e), states);
      var last := states[|states| - 1];
      CollectExactly(b, step.names, last.workers);
      if e.CacheIo? {
        var w :| w in last.workers && !w.Done?;
        var i :| 0 <= i < |last.workers| && last.workers[i] == w;
        assert last.workers[i].Failed?;
      }
    }
  }

  lemma InFlatten(steps: seq<Step>, k: nat, n: Handle)
    requires k < |steps| && n in steps[k].names
    ensures n in Flatten(BatchesOf(steps))
  {
    var batches := BatchesOf(steps);
    FlattenAt(batches, k);
  }

  ghost predicate ErrorMeans(b: Build, steps: seq<Step>, pending: seq<Handle>, e: ExecutionError)
    requires Known(b.index, Flatten(BatchesOf(steps)))
  {
    match e
    case MissingDependency(n) => pending != [] && n == pending[0] && AllResolvable(b, Flatten(BatchesOf(steps)))
    case UnknownArtifactNode(n) => n in Flatten(BatchesOf(steps)) && !Resolvable(b, n)
    case CacheIo =>
      exists step, mid :: step in steps && step.parallel && CanFail(mid, JobsOf(b, step.names))
  }

  /** Success means that nothing is left and every node found its requirement; each error
      means what it says, and an I/O error can only come from a parallel batch. */
  lemma OutcomeMeans(b: Build, steps: seq<Step>, pending: seq<Handle>, c: Cache, c': Cache,
                     r: Result<seq<NodeResult>, ExecutionError>)
    requires Prepared(b) && AllKnown(b, steps) && Known(b.index, Flatten(BatchesOf(steps)))
    requires Executes(b, steps, pending, c, c', r)
    ensures match r
            case Success(_) => pending == [] && AllResolvable(b, Flatten(BatchesOf(steps)))
            case Failure(e) => ErrorMeans(b, steps, pending, e)
  {
    hide BatchRuns, Completed, Prepared;
    if r.Failure? && Interrupted(b, steps, c, c', r.error) {
      var k: nat, mid, v :| k < |steps| && Completed(b, steps[..k], c, mid, v)
                            && BatchRuns(b, steps[k], mid, c', Failure(r.error));
      BatchFailure(b, steps[k], mid, c', r.error);
      if r.error.UnknownArtifactNode? {
        InFlatten(steps, k, r.error.node);
      }
    } else {
      var v :| Completed(b, steps, c, c', v);
      CompletedNames(b, steps, c, c', v);
    }
  }

  // ---------------------------------------------------------------------------
  // What successful executions have in common, for any build and any cache

  /** An artifact came out with the document that was asked for, whatever its times. */
  ghost predicate Yields(b: Build, name: Handle, came: seq<Materialized>) {
    && |came| == |JobsAt(b, name)|
    && forall i :: 0 <= i < |came| ==> Untimed(came[i].document) == Untimed(JobsAt(b, name)[i].document)
  }

  ghost predicate Answers(b: Build, name: Handle, r: NodeResult)
    requires name in b.index
  {
    exists came :: Yields(b, name, came) && r == Answer(b, name, came)
  }

  /** One answer per node, in the order of the nodes. */
  ghost predicate Answered(b: Build, names: seq<Handle>, v: seq<NodeResult>)
    requires Known(b.index, names)
  {
    |v| == |names| && forall i :: 0 <= i < |names| ==> Answers(b, names[i], v[i])
  }

  lemma AnsweredAppend(b: Build, first: seq<Handle>, then_: seq<Handle>, v: seq<NodeResult>, more: seq<NodeResult>)
    requires Known(b.index, first) && Known(b.index, then_) && Answered(b, first, v) && Answered(b, then_, more)
    ensures Known(b.index, first + then_) && Answered(b, first + then_, v + more)
  {
    hide Answers;
  }

  lemma {:induction false} ResultsAreAnswered(b: Build, c: Cache, names: seq<Handle>)
    requires Known(b.index, names)
    ensures Answered(b, names, ResultsOf(b, c, names))
  {
    hide ResultsOf, Answered;
    if names == [] {
      NoneIsAnswered(b, c);
    } else {
      var (front, last) := (names[..|names| - 1], names[|names| - 1]);
      ResultsAreAnswered(b, c, front);
      SnocIsAnswered(b, c, front, last);
      assert names == front + [last];
    }
  }

  lemma NoneIsAnswered(b: Build, c: Cache)
    ensures Answered(b, [], ResultsOf(b, c, []))
  {
  }

  lemma SnocIsAnswered(b: Build, c: Cache, front: seq<Handle>, last: Handle)
    requires Known(b.index, front) && last in b.index && Answered(b, front, ResultsOf(b, c, front))
    ensures Known(b.index, front + [last]) && Answered(b, front + [last], ResultsOf(b, c, front + [last]))
  {
    hide ResultsOf, ResultAt, Answered, CacheAfter;
    var mid := CacheAfter(b, c, front);
    OneIsAnswered(b, mid, last);
    ResultsOfSnoc(b, c, front, last);
    AnsweredAppend(b, front, [last], ResultsOf(b, c, front), [ResultAt(b, mid, last)]);
  }

  lemma OneIsAnswered(b: Build, c: Cache, name: Handle)
    requires name in b.index
    ensures Answered(b, [name], [ResultAt(b, c, name)])
  {
    hide Answer;
    assert Yields(b, name, RunResults(c, JobsAt(b, name)));
    assert Answers(b, name, ResultAt(b, c, name));
  }

  /** Every worker that is done has the document it was asked for. */
  ghost predicate AllYield(workers: seq<Worker>, jobs: seq<Job>) {
    && |workers| == |jobs|
    && forall i :: 0 <= i < |jobs| && workers[i].Done? ==>
         Untimed(workers[i].result.document) == Untimed(jobs[i].document)
  }

  /** So it is in every reachable state, whatever the cache holds. */
  lemma {:induction false} DoneYields(c: Cache, jobs: seq<Job>, states: seq<State>, k: nat)
    requires Trace(c, jobs, states) && k < |states|
    ensures AllYield(states[k].workers, jobs)
  {
    if k > 0 {
      DoneYields(c, jobs, states, k - 1);
      assert Next(jobs, states[k - 1], states[k]);
    }
  }

  lemma YieldSplit(workers: seq<Worker>, front: seq<Job>, last: seq<Job>)
    requires AllYield(workers, front + last)
    ensures AllYield(workers[..|front|], front) && AllYield(workers[|front|..], last)
  {
  }

  lemma JobsOfSnoc(b: Build, front: seq<Handle>, last: Handle)
    ensures JobsOf(b, front + [last]) == JobsOf(b, front) + JobsAt(b, last)
  {
    assert (front + [last])[..|front|] == front;
  }

  lemma {:induction false} CollectAnswers(b: Build, names: seq<Handle>, workers: seq<Worker>)
    requires Known(b.index, names) && AllYield(workers, JobsOf(b, names)) && Collect(b, names, workers).Success?
    ensures Answered(b, names, Collect(b, names, workers).value)
  {
    hide Answer, Answered, Answers, Joined;
    if names == [] {
      NothingAnswered(b);
    } else {
      var (front, last) := (names[..|names| - 1], names[|names| - 1]);
      assert names == front + [last];
      JobsOfSnoc(b, front, last);
      YieldSplit(workers, JobsOf(b, front), JobsAt(b, last));
      hide Collect, JobsOf, JobsAt, AllYield;
      CollectLast(b, front, last, workers);
      var k := |JobsOf(b, front)|;
      CollectAnswers(b, front, workers[..k]);
      JoinAnswers(b, last, workers[k..]);
      AnsweredAppend(b, front, [last], Collect(b, front, workers[..k]).value, [Joined(b, last, workers[k..]).value]);
    }
  }

  lemma NothingAnswered(b: Build)
    ensures Answered(b, [], [])
  {
  }

  lemma JoinAnswers(b: Build, name: Handle, w: seq<Worker>)
    requires name in b.index && AllYield(w, JobsAt(b, name)) && Joined(b, name, w).Success?
    ensures Answered(b, [name], [Joined(b, name, w).value])
  {
    var came := if w == [] then [] else [w[0].result];
    assert Yields(b, name, came) && Joined(b, name, w).value == Answer(b, name, came);
    assert Answers(b, name, Joined(b, name, w).value);
  }

  lemma BatchAnswers(b: Build, step: Step, c: Cache, c': Cache, v: seq<NodeResult>)
    requires Known(b.index, step.names) && BatchRuns(b, step, c, c', Success(v))
    ensures Answered(b, step.names, v)
  {
    hide Collect, Answered;
    if step.parallel {
      var states: seq<State> :| Interleaves(b, step.names, c, c', Success(v), states);
      DoneYields(c, JobsOf(b, step.names), states, |states| - 1);
      CollectAnswers(b, step.names, states[|states| - 1].workers);
    } else {
      ResultsAreAnswered(b, c, step.names);
    }
  }

  /** Every successful execution, on any cache and in any interleaving, answers every node
      with the document it asks for. */
  lemma {:induction false} CompletedAnswers(b: Build, steps: seq<Step>, c: Cache, c': Cache, v: seq<NodeResult>)
    requires AllKnown(b, steps) && Completed(b, steps, c, c', v)
    ensures Known(b.index, Flatten(BatchesOf(steps))) && Answered(b, Flatten(BatchesOf(steps)), v)
    decreases |steps|
  {
    hide BatchRuns, Answered;
    if steps == [] {
      NothingAnswered(b);
    } else {
      var m := |steps| - 1;
      var mid, front, last := CompletedLast(b, steps, c, c', v);
      CompletedAnswers(b, steps[..m], c, mid, front);
      BatchAnswers(b, steps[m], mid, c', last);
      FlattenLast(steps);
      AnsweredAppend(b, Flatten(BatchesOf(steps[..m])), steps[m].names, front, last);
    }
  }

  // ---------------------------------------------------------------------------
  // One batch

  /** The artifacts of a batch have triples of their own, decided by their keys. */
  ghost predicate Sound(tau: StorageKey -> Triple, b: Build, step: Step) {
    Known(b.index, step.names) && AllResolvable(b, step.names) && Batch(tau, JobsOf(b, step.names))
  }

  lemma DoneThroughout(jobs: seq<Job>, s: State)
    requires |s.workers| == |jobs| && forall w :: w in s.workers ==> w.Done?
    ensures AllDone(jobs, s)
  {
    forall i | 0 <= i < |s.workers| ensures s.workers[i].Done? {
      assert s.workers[i] in s.workers;
    }
  }

  /** A batch that succeeds does what running its nodes in turn does. */
  lemma BatchIsSequential(tau: StorageKey -> Triple, b: Build, step: Step, c: Cache, c': Cache, v: seq<NodeResult>)
    requires Sound(tau, b, step) && Filed(tau, c) && BatchRuns(b, step, c, c', Success(v))
    ensures c' == CacheAfter(b, c, step.names) && v == ResultsOf(b, c, step.names) && Filed(tau, c')
  {
    hide Collect, ResultsOf, Filed, Batch, Next;
    var jobs := JobsOf(b, step.names);
    if step.parallel {
      var states: seq<State> :| Interleaves(b, step.names, c, c', Success(v), states);
      var last := states[|states| - 1];
      CollectExactly(b, step.names, last.workers);
      DoneThroughout(jobs, last);
      BatchIsConfluent(tau, c, jobs, states);
      CollectSequential(b, c, step.names, last.workers);
    }
    RunKeepsFiled(tau, c, jobs);
  }

  ghost predicate RacesIn(b: Build, step: Step, c: Cache) { step.parallel && Races(c, JobsOf(b, step.names)) }

  /** A batch that fails has raced, and leaves a cache that later builds can use. */
  lemma FailedBatchRaced(tau: StorageKey -> Triple, b: Build, step: Step, c: Cache, c': Cache, e: ExecutionError)
    requires Sound(tau, b, step) && Filed(tau, c) && BatchRuns(b, step, c, c', Failure(e))
    ensures RacesIn(b, step, c) && e == CacheIo && Filed(tau, c') && (Inv(c) ==> Inv(c'))
  {
    BatchFailure(b, step, c, c', e);
    hide CanFail, Filed, Batch, Races, Inv, Collect;
    var jobs := JobsOf(b, step.names);
    BatchFailsIffRace(tau, c, jobs);
    var states: seq<State> :| Interleaves(b, step.names, c, c', Failure(e), states);
    TraceKeepsBatchInv(tau, c, jobs, states, |states| - 1);
    if Inv(c) {
      BatchKeepsInv(tau, c, jobs, states, |states| - 1);
    }
  }

  /** A parallel batch that races can fail. */
  lemma RacingBatchCanFail(tau: StorageKey -> Triple, b: Build, step: Step, c: Cache) returns (c': Cache)
    requires Sound(tau, b, step) && Filed(tau, c) && RacesIn(b, step, c)
    ensures BatchRuns(b, step, c, c', Failure(CacheIo))
  {
    hide Collect, Filed, Batch, Races, Next, JobsOf;
    var jobs := JobsOf(b, step.names);
    BatchFailsIffRace(tau, c, jobs);
    var states :| Trace(c, jobs, states) && SomeFailure(states[|states| - 1]);
    DoneYields(c, jobs, states, |states| - 1);
    var all := FailureIsFinal(c, jobs, states);
    var last := all[|all| - 1];
    var i :| 0 <= i < |last.workers| && last.workers[i].Failed?;
    CollectExactly(b, step.names, last.workers);
    assert last.workers[i] in last.workers;
    c' := last.cache;
    assert Interleaves(b, step.names, c, c', Failure(CacheIo), all);
  }

  /** A batch that does not race can run, and then succeeds. */
  lemma QuietBatchRuns(tau: StorageKey -> Triple, b: Build, step: Step, c: Cache)
    requires Sound(tau, b, step) && Filed(tau, c) && !RacesIn(b, step, c)
    ensures BatchRuns(b, step, c, CacheAfter(b, c, step.names), Success(ResultsOf(b, c, step.names)))
  {
    hide Filed, Batch, Races, Collect, ResultsOf;
    if step.parallel {
      var (jobs, from) := (JobsOf(b, step.names), Start(c, JobsOf(b, step.names)));
      assert Leads(jobs, from, [from], from);
      var states, to := Halts(jobs, from, [from], from);
      var r := Collect(b, step.names, to.workers);
      assert Interleaves(b, step.names, c, to.cache, r, states);
      if r.Failure? {
        FailedBatchRaced(tau, b, step, c, to.cache, r.error);
        assert false;
      }
      BatchIsSequential(tau, b, step, c, to.cache, r.value);
    }
  }

  // ---------------------------------------------------------------------------
  // All batches

  ghost predicate AllSound(tau: StorageKey -> Triple, b: Build, steps: seq<Step>) {
    forall step :: step in steps ==> Sound(tau, b, step)
  }

  /** The cache before batch `k` of a sequential run. */
  function CacheBefore(b: Build, steps: seq<Step>, c: Cache, k: nat): Cache
    requires k <= |steps|
  {
    CacheAfter(b, c, Flatten(BatchesOf(steps[..k])))
  }

  lemma CacheBeforeNext(b: Build, steps: seq<Step>, c: Cache, k: nat)
    requires k < |steps|
    ensures CacheBefore(b, steps, c, k + 1) == CacheAfter(b, CacheBefore(b, steps, c, k), steps[k].names)
  {
    assert steps[..k + 1][..k] == steps[..k];
    FlattenLast(steps[..k + 1]);
    CacheAppend(b, c, Flatten(BatchesOf(steps[..k])), steps[k].names);
  }

  lemma {:induction false} FlattenKnown(tau: StorageKey -> Triple, b: Build, steps: seq<Step>)
    requires AllSound(tau, b, steps)
    ensures Known(b.index, Flatten(BatchesOf(steps)))
    decreases |steps|
  {
    if steps != [] {
      assert Sound(tau, b, steps[|steps| - 1]);
      FlattenKnown(tau, b, steps[..|steps| - 1]);
      FlattenLast(steps);
    }
  }

  /** Batches that all succeed do what running all their nodes in turn does. */
  lemma {:induction false} CompletedIsSequential(tau: StorageKey -> Triple, b: Build, steps: seq<Step>, c: Cache,
                                                 c': Cache,
                                                 v: seq<NodeResult>)
    requires AllSound(tau, b, steps) && AllKnown(b, steps) && Filed(tau, c) && Completed(b, steps, c, c', v)
    ensures Known(b.index, Flatten(BatchesOf(steps))) && Filed(tau, c')
    ensures c' == CacheAfter(b, c, Flatten(BatchesOf(steps))) && v == ResultsOf(b, c, Flatten(BatchesOf(steps)))
    decreases |steps|
  {
    hide BatchRuns, Sound, Filed, CacheAfter;
    if steps == [] {
      NothingRuns(b, c);
    } else {
      var m := |steps| - 1;
      var mid, front, last := CompletedLast(b, steps, c, c', v);
      CompletedIsSequential(tau, b, steps[..m], c, mid, front);
      BatchIsSequential(tau, b, steps[m], mid, c', last);
      FlattenLast(steps);
      RunAppend(b, c, Flatten(BatchesOf(steps[..m])), steps[m].names);
    }
  }

  lemma NothingRuns(b: Build, c: Cache)
    ensures CacheAfter(b, c, []) == c
  {
  }

  ghost predicate RacesAt(b: Build, steps: seq<Step>, c: Cache, k: nat) {
    k < |steps| && RacesIn(b, steps[k], CacheBefore(b, steps, c, k))
  }

  /** As long as no batch races, the batches run. */
  lemma {:induction false} QuietBatchesRun(tau: StorageKey -> Triple, b: Build, steps: seq<Step>, c: Cache, k: nat)
    returns (v: seq<NodeResult>)
    requires AllSound(tau, b, steps) && AllKnown(b, steps) && Filed(tau, c) && k <= |steps|
    requires forall j :: 0 <= j < k ==> !RacesAt(b, steps, c, j)
    ensures AllKnown(b, steps[..k]) && Completed(b, steps[..k], c, CacheBefore(b, steps, c, k), v)
    ensures Filed(tau, CacheBefore(b, steps, c, k))
  {
    hide BatchRuns, Sound, Filed, CacheAfter, RacesIn, Known;
    if k == 0 {
      NothingRuns(b, c);
      v := [];
    } else {
      v := QuietBatchesRun(tau, b, steps, c, k - 1);
      var (step, mid) := (steps[k - 1], CacheBefore(b, steps, c, k - 1));
      assert !RacesAt(b, steps, c, k - 1);
      QuietBatchRuns(tau, b, step, mid);
      CacheBeforeNext(b, steps, c, k - 1);
      var last := ResultsOf(b, mid, step.names);
      BatchIsSequential(tau, b, step, mid, CacheBefore(b, steps, c, k), last);
      CompletedSnoc(b, steps[..k - 1], step, c, mid, CacheBefore(b, steps, c, k), v, last);
      assert steps[..k - 1] + [step] == steps[..k];
      v := v + last;
    }
  }

  lemma {:induction false} FirstRace(b: Build, steps: seq<Step>, c: Cache, k: nat) returns (first: nat)
    requires RacesAt(b, steps, c, k)
    ensures RacesAt(b, steps, c, first) && forall j :: 0 <= j < first ==> !RacesAt(b, steps, c, j)
    decreases k
  {
    if j: nat :| j < k && RacesAt(b, steps, c, j) {
      first := FirstRace(b, steps, c, j);
    } else {
      first := k;
    }
  }

  ghost predicate SomeRace(b: Build, steps: seq<Step>, c: Cache) { exists k: nat :: RacesAt(b, steps, c, k) }

  /** An interrupted execution raced in the batch it was interrupted in. */
  lemma InterruptedRaced(tau: StorageKey -> Triple, b: Build, steps: seq<Step>, c: Cache, c': Cache, e: ExecutionError)
    requires AllSound(tau, b, steps) && AllKnown(b, steps) && Filed(tau, c) && Interrupted(b, steps, c, c', e)
    ensures SomeRace(b, steps, c) && e == CacheIo && Filed(tau, c') && (Inv(c) ==> Inv(c'))
  {
    hide BatchRuns, Sound, Filed, Completed, RacesIn, Inv;
    var k: nat, mid, v :| k < |steps| && Completed(b, steps[..k], c, mid, v)
                          && BatchRuns(b, steps[k], mid, c', Failure(e));
    CompletedIsSequential(tau, b, steps[..k], c, mid, v);
    if Inv(c) {
      RunKeepsInv(c, JobsOf(b, Flatten(BatchesOf(steps[..k]))));
    }
    FailedBatchRaced(tau, b, steps[k], mid, c', e);
    assert RacesAt(b, steps, c, k);
  }

  /** An execution with a race ahead of it can fail. */
  lemma RaceCanInterrupt(tau: StorageKey -> Triple, b: Build, steps: seq<Step>, c: Cache) returns (c': Cache)
    requires AllSound(tau, b, steps) && AllKnown(b, steps) && Filed(tau, c) && SomeRace(b, steps, c)
    ensures Interrupted(b, steps, c, c', CacheIo)
  {
    hide BatchRuns, Sound, Filed, Completed, RacesIn, CacheAfter;
    var some: nat :| RacesAt(b, steps, c, some);
    var k := FirstRace(b, steps, c, some);
    var v := QuietBatchesRun(tau, b, steps, c, k);
    c' := RacingBatchCanFail(tau, b, steps[k], CacheBefore(b, steps, c, k));
  }

  /** All executions, exactly: the ones that succeed are the sequential one, the ones that
      fail hit a vanished cache entry, and there is one that fails exactly when some parallel
      batch races on the cache as the sequential run leaves it before that batch. */
  lemma ExecutesExactly(tau: StorageKey -> Triple, b: Build, steps: seq<Step>, c: Cache)
    requires AllSound(tau, b, steps) && AllKnown(b, steps) && Filed(tau, c)
    ensures Known(b.index, Flatten(BatchesOf(steps)))
    ensures forall c', r :: Executes(b, steps, [], c, c', r) ==>
                              match r
                              case Success(v) =>
                                && c' == CacheBefore(b, steps, c, |steps|)
                                && v == ResultsOf(b, c, Flatten(BatchesOf(steps)))
                              case Failure(e) => e == CacheIo
    ensures (exists c', e :: Executes(b, steps, [], c, c', Failure(e))) <==> SomeRace(b, steps, c)
  {
    hide BatchRuns, Sound, Filed, Completed, RacesAt, CacheAfter, Interrupted, Known;
    FlattenKnown(tau, b, steps);
    assert steps[..|steps|] == steps;
    forall c', r | Executes(b, steps, [], c, c', r)
      ensures match r
              case Success(v) =>
                c' == CacheBefore(b, steps, c, |steps|) && v == ResultsOf(b, c, Flatten(BatchesOf(steps)))
              case Failure(e) => e == CacheIo && SomeRace(b, steps, c)
    {
      if r.Success? {
        CompletedIsSequential(tau, b, steps, c, c', r.value);
      } else {
        InterruptedRaced(tau, b, steps, c, c', r.error);
      }
    }
    if SomeRace(b, steps, c) {
      var c' := RaceCanInterrupt(tau, b, steps, c);
      assert Executes(b, steps, [], c, c', Failure(CacheIo));
    }
  }

  // ---------------------------------------------------------------------------
  // What a failed execution leaves behind

  ghost predicate BatchLeft(tau: StorageKey -> Triple, c: Cache, jobs: seq<Job>, c': Cache) {
    && (forall i :: 0 <= i < |jobs| ==> Left(tau, c, jobs[i], c'))
    && forall p :: (forall i :: 0 <= i < |jobs| ==> !Owns(tau, jobs[i], p)) ==> At(c', p) == At(c, p)
  }

  lemma SomeWorkerFailed(b: Build, names: seq<Handle>, last: State)
    requires Known(b.index, names) && AllResolvable(b, names) && AllHalted(JobsOf(b, names), last)
    requires Collect(b, names, last.workers).Failure?
    ensures SomeFailure(last)
  {
    hide Collect, JobsOf;
    CollectExactly(b, names, last.workers);
    var w :| w in last.workers && !w.Done?;
    var m :| 0 <= m < |last.workers| && last.workers[m] == w;
    assert last.workers[m].Failed?;
  }

  /** A failed batch has evicted something under a worker that shares the directory. */
  lemma FailedBatchLeaves(tau: StorageKey -> Triple, b: Build, step: Step, c: Cache, c': Cache, e: ExecutionError)
    returns (i: nat, k: nat, p: CachePath)
    requires Sound(tau, b, step) && Filed(tau, c) && BatchRuns(b, step, c, c', Failure(e))
    ensures BatchLeft(tau, c, JobsOf(b, step.names), c') && step.parallel && Filed(tau, c')
    ensures var jobs := JobsOf(b, step.names);
            && i < |jobs| && k < |jobs| && k != i && DirectoryOf(jobs[i]) == DirectoryOf(jobs[k])
            && ToEvict(c, jobs[k], p) && p !in c'
  {
    FailedBatchRaced(tau, b, step, c, c', e);
    hide Filed, Batch, Races, Inv, Collect, Left, ToEvict, DirectoryOf, WorkerInv, Owns, Next, JobsOf;
    var jobs := JobsOf(b, step.names);
    var states: seq<State> :| Interleaves(b, step.names, c, c', Failure(e), states);
    var last := states[|states| - 1];
    TraceKeepsBatchInv(tau, c, jobs, states, |states| - 1);
    forall m | 0 <= m < |jobs| ensures Left(tau, c, jobs[m], c') {
      HaltedLeaves(tau, c, jobs, last, m);
    }
    SomeWorkerFailed(b, step.names, last);
    i, k, p := FailureEvicts(tau, c, jobs, states);
  }

  lemma OthersUntouched(tau: StorageKey -> Triple, c: Cache, jobs: seq<Job>, c': Cache, j: Job)
    requires forall p :: (forall i :: 0 <= i < |jobs| ==> !Owns(tau, jobs[i], p)) ==> At(c', p) == At(c, p)
    requires forall i :: 0 <= i < |jobs| ==> DocumentTriple(jobs[i]) != DocumentTriple(j)
    ensures Untouched(tau, c, j, c')
  {
  }

  /** The jobs of all batches are those before a batch, its own, and those after it. */
  lemma JobsAround(b: Build, steps: seq<Step>, k: nat)
    requires k < |steps|
    ensures JobsOf(b, Flatten(BatchesOf(steps))) ==
              JobsOf(b, Flatten(BatchesOf(steps[..k]))) + JobsOf(b, steps[k].names)
              + JobsOf(b, Flatten(BatchesOf(steps)[k + 1..]))
  {
    var batches := BatchesOf(steps);
    assert BatchesOf(steps[..k]) == batches[..k];
    FlattenAt(batches, k);
    JobsAppend(b, Flatten(batches[..k]), batches[k]);
    JobsAppend(b, Flatten(batches[..k]) + batches[k], Flatten(batches[k + 1..]));
  }

  lemma PartsAreBatches(tau: StorageKey -> Triple, first: seq<Job>, then_: seq<Job>, rest: seq<Job>)
    requires Batch(tau, first + then_ + rest)
    ensures Batch(tau, first) && Batch(tau, then_)
  {
    var all := first + then_ + rest;
    assert forall i :: 0 <= i < |first| ==> all[i] == first[i];
    assert forall i :: 0 <= i < |then_| ==> all[|first| + i] == then_[i];
  }

  lemma JobsApart(tau: StorageKey -> Triple, jobs: seq<Job>, i: nat, lo: nat, hi: nat, k: nat)
    requires Batch(tau, jobs) && lo <= k < hi <= |jobs| && i < |jobs| && !(lo <= i < hi)
    ensures DocumentTriple(jobs[k]) != DocumentTriple(jobs[i])
  {
    assert i < k || k < i;
  }

  /** Every job among those before, in and after a batch that failed, is left as it was, done,
      or with some evictions made. */
  lemma LeftAround(tau: StorageKey -> Triple, c: Cache, mid: Cache, c': Cache, first: seq<Job>, then_: seq<Job>,
                   rest: seq<Job>, j: Job)
    requires Batch(tau, first + then_ + rest) && j in first + then_ + rest
    requires Filed(tau, c) && mid == RunCache(c, first) && BatchLeft(tau, mid, then_, c')
    ensures Left(tau, c, j, c')
  {
    hide Filed, RunCache, After, OnlyEvicted, Left;
    var all := first + then_ + rest;
    var i :| 0 <= i < |all| && all[i] == j;
    PartsAreBatches(tau, first, then_, rest);
    RunKeepsFiled(tau, c, first);
    if i < |first| {
      RunLeaves(tau, c, first, i);
    } else {
      forall k | 0 <= k < |first| ensures DocumentTriple(first[k]) != DocumentTriple(j) {
        JobsApart(tau, all, i, 0, |first|, k);
      }
      SequentialByFootprint(tau, c, c, first);
      OthersUntouched(tau, c, first, mid, j);
    }
    if !(|first| <= i < |first| + |then_|) {
      forall k | 0 <= k < |then_| ensures DocumentTriple(then_[k]) != DocumentTriple(j) {
        JobsApart(tau, all, i, |first|, |first| + |then_|, |first| + k);
      }
      OthersUntouched(tau, mid, then_, c', j);
      if i >= |first| {
        UntouchedIsLeft(tau, c, j, c);
        LeftAmongOthers(tau, c, c, c, mid, j);
      }
      LeftAmongOthers(tau, c, c, mid, c', j);
    } else {
      LeftAmongOthers(tau, c, mid, c', c', j);
    }
  }

  lemma UntouchedIsLeft(tau: StorageKey -> Triple, c: Cache, j: Job, now: Cache)
    requires Untouched(tau, c, j, now)
    ensures Left(tau, c, j, now)
  {
  }

  // ---------------------------------------------------------------------------
  // The jobs of a run

  /** No document of a job's triple lies outside the job's own path. */
  ghost predicate NothingToEvict(c: Cache, jobs: seq<Job>) {
    forall j, p :: j in jobs ==> !ToEvict(c, j, p)
  }

  lemma JobsWithin(b: Build, steps: seq<Step>, k: nat, j: Job)
    requires k < |steps| && (j in JobsOf(b, steps[k].names) || j in JobsOf(b, Flatten(BatchesOf(steps[..k]))))
    ensures j in JobsOf(b, Flatten(BatchesOf(steps)))
  {
    hide JobsOf;
    JobsAround(b, steps, k);
  }

  lemma {:induction false} JobsAppend(b: Build, first: seq<Handle>, then_: seq<Handle>)
    ensures JobsOf(b, first + then_) == JobsOf(b, first) + JobsOf(b, then_)
    decreases |then_|
  {
    if then_ == [] {
      assert first + then_ == first;
    } else {
      var m := |then_| - 1;
      SplitLast(first, then_);
      assert (first + then_)[..|first| + m] == first + then_[..m];
      JobsAppend(b, first, then_[..m]);
    }
  }
}
