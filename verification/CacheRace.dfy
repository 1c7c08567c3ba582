/** A parallel batch: one worker per artifact, all on the same cache directory. Each
    worker's existence checks, directory listing, sibling reads, removals, load and write
    are separate steps that interleave freely with the other workers'. */
module CacheRace {
  import opened Ordering
  import opened Types
  import opened ArtifactCache

  /** Why a worker scans its directory: its path was absent, its path was present, or the
      document found there was not acceptable. */
  datatype Stage = Fresh | Occupied | Mismatch

  datatype Worker =
    | Checking
    | Listing(stage: Stage)
    | Scanning(stage: Stage, todo: set<CachePath>)
    | Reading(stage: Stage, todo: set<CachePath>, entry: CachePath)
    | Evicting(stage: Stage, todo: set<CachePath>, entry: CachePath)
    | Loading
    | Writing
    | Done(result: Materialized)
    | Failed

  datatype State = State(cache: Cache, workers: seq<Worker>)

  function Start(c: Cache, jobs: seq<Job>): State {
    State(c, seq(|jobs|, i => Checking))
  }

  function DirectoryOf(j: Job): string { Slug(j.document.cacheNamespace) }

  predicate Halted(w: Worker) { w.Done? || w.Failed? }

  /** A scanning worker looks at any entry of its listing it has not looked at yet. */
  predicate CanStep(jobs: seq<Job>, s: State, i: nat, p: CachePath) {
    && i < |jobs| && |s.workers| == |jobs| && !Halted(s.workers[i])
    && (s.workers[i].Scanning? && s.workers[i].todo != {} ==> p in s.workers[i].todo)
  }

  function Moved(s: State, i: nat, w: Worker): State
    requires i < |s.workers|
  {
    s.(workers := s.workers[i := w])
  }

  /** Worker `i` takes its next step, looking at `p` if it is scanning. An entry that has
      vanished when it is opened or removed is an I/O error. */
  function Stepped(jobs: seq<Job>, s: State, i: nat, p: CachePath): State
    requires CanStep(jobs, s, i, p)
  {
    var d, path := jobs[i].document, DocumentPath(jobs[i]);
    match s.workers[i]
    case Checking => Moved(s, i, Listing(if path in s.cache then Occupied else Fresh))
    case Listing(stage) =>
      Moved(s, i, Scanning(stage, set q | q in s.cache && q.directory == DirectoryOf(jobs[i])))
    case Scanning(stage, todo) =>
      if todo == {} then Moved(s, i, if stage == Occupied then Loading else Writing)
      else Moved(s, i, if p.key == d.storageKey || p !in s.cache
                       then Scanning(stage, todo - {p}) else Reading(stage, todo - {p}, p))
    case Reading(stage, todo, entry) =>
      if entry !in s.cache then Moved(s, i, Failed)
      else Moved(s, i, if TripleOf(s.cache[entry]) == TripleOf(d)
                       then Evicting(stage, todo, entry) else Scanning(stage, todo))
    case Evicting(stage, todo, entry) =>
      if entry !in s.cache then Moved(s, i, Failed)
      else State(s.cache - {entry}, s.workers[i := Scanning(stage, todo)])
    case Loading =>
      if path !in s.cache then Moved(s, i, Failed)
      else Moved(s, i, if SameIdentity(s.cache[path], d) then Done(Reuse(s.cache[path], d)) else Listing(Mismatch))
    case Writing =>
      State(s.cache[path := d.(times := ObservedTimes(d.acquisition, jobs[i].elapsedMs))],
            s.workers[i := Done(Produce(d, jobs[i].elapsedMs))])
  }

  ghost predicate StepBy(jobs: seq<Job>, s: State, s': State, i: nat, p: CachePath) {
    CanStep(jobs, s, i, p) && s' == Stepped(jobs, s, i, p)
  }

  ghost predicate Next(jobs: seq<Job>, s: State, s': State) {
    exists i: nat, p :: StepBy(jobs, s, s', i, p)
  }

  ghost predicate Trace(c: Cache, jobs: seq<Job>, states: seq<State>) {
    && states != [] && states[0] == Start(c, jobs)
    && forall k :: 0 <= k < |states| - 1 ==> Next(jobs, states[k], states[k + 1])
  }

  // ---------------------------------------------------------------------------
  // Footprints

  /** Every document is filed under the triple that its key determines. */
  ghost predicate Filed(tau: StorageKey -> Triple, c: Cache) {
    forall p :: p in c ==> TripleOf(c[p]) == tau(p.key)
  }

  ghost predicate Batch(tau: StorageKey -> Triple, jobs: seq<Job>) {
    && DistinctBy(jobs, DocumentTriple)
    && forall i :: 0 <= i < |jobs| ==> tau(jobs[i].document.storageKey) == DocumentTriple(jobs[i])
  }

  /** The paths a worker may change: those filed under its triple. */
  ghost predicate Owns(tau: StorageKey -> Triple, j: Job, p: CachePath) {
    tau(p.key) == DocumentTriple(j)
  }

  function At(c: Cache, p: CachePath): Option<Document> { if p in c then Some(c[p]) else None }

  ghost predicate ToEvict(c: Cache, j: Job, p: CachePath) { p in c && Sibling(p, c[p], j.document) }

  /** The siblings a worker has not looked at yet. */
  ghost function Unseen(c: Cache, j: Job, w: Worker): set<CachePath> {
    var siblings := set p | p in c && Sibling(p, c[p], j.document);
    match w
    case Checking => siblings
    case Listing(stage) => if stage == Mismatch then {} else siblings
    case Scanning(stage, todo) => if stage == Mismatch then {} else todo
    case Reading(stage, todo, entry) => if stage == Mismatch then {} else todo + {entry}
    case Evicting(_, todo, entry) => todo + {entry}
    case _ => {}
  }

  /** What a worker has done so far to its own footprint, compared with the cache `c` the
      batch started from. */
  ghost predicate Progress(tau: StorageKey -> Triple, c: Cache, j: Job, now: Cache, w: Worker) {
    forall p :: Owns(tau, j, p) ==>
                  At(now, p) == if w.Done? then At(After(c, j.document, j.elapsedMs), p)
                                else if ToEvict(c, j, p) && p !in Unseen(c, j, w) then None
                                else At(c, p)
  }

  ghost predicate StageFits(c: Cache, j: Job, w: Worker) {
    match w
    case Listing(stage) => StageHolds(c, j, stage)
    case Scanning(stage, todo) => StageHolds(c, j, stage) && forall p :: p in todo ==> p.directory == DirectoryOf(j)
    case Reading(stage, todo, entry) =>
      && StageHolds(c, j, stage)
      && entry.key != j.document.storageKey && entry !in todo
      && (forall p :: p in todo + {entry} ==> p.directory == DirectoryOf(j))
    case Evicting(stage, todo, entry) =>
      && stage != Mismatch && StageHolds(c, j, stage)
      && ToEvict(c, j, entry) && entry !in todo
      && (forall p :: p in todo + {entry} ==> p.directory == DirectoryOf(j))
    case Loading => DocumentPath(j) in c
    case Writing => !Hit(c, j.document)
    case Done(result) => result == ResultOf(c, j.document, j.elapsedMs)
    case _ => true
  }

  ghost predicate StageHolds(c: Cache, j: Job, stage: Stage) {
    match stage
    case Fresh => DocumentPath(j) !in c
    case Occupied => DocumentPath(j) in c
    case Mismatch => DocumentPath(j) in c && !Hit(c, j.document)
  }

  /** A failed worker has written nothing, and removed nothing that it was not to evict. */
  ghost predicate OnlyEvicted(tau: StorageKey -> Triple, c: Cache, j: Job, now: Cache) {
    forall p :: Owns(tau, j, p) ==> At(now, p) == At(c, p) || (ToEvict(c, j, p) && p !in now)
  }

  ghost predicate WorkerInv(tau: StorageKey -> Triple, c: Cache, j: Job, now: Cache, w: Worker) {
    if w.Failed? then OnlyEvicted(tau, c, j, now)
    else Progress(tau, c, j, now, w) && StageFits(c, j, w)
  }

  ghost predicate BatchInv(tau: StorageKey -> Triple, c: Cache, jobs: seq<Job>, s: State) {
    && |s.workers| == |jobs|
    && Filed(tau, s.cache)
    && (forall i :: 0 <= i < |jobs| ==> WorkerInv(tau, c, jobs[i], s.cache, s.workers[i]))
    && (forall p :: (forall i :: 0 <= i < |jobs| ==> !Owns(tau, jobs[i], p)) ==> At(s.cache, p) == At(c, p))
  }

  /** A step changes the cache only inside the worker's footprint. */
  lemma StepFootprint(tau: StorageKey -> Triple, c: Cache, jobs: seq<Job>, s: State, s': State, i: nat, p: CachePath)
    requires Batch(tau, jobs) && Filed(tau, c) && Filed(tau, s.cache) && StepBy(jobs, s, s', i, p)
    requires WorkerInv(tau, c, jobs[i], s.cache, s.workers[i])
    ensures Filed(tau, s'.cache)
    ensures forall q :: !Owns(tau, jobs[i], q) ==> At(s'.cache, q) == At(s.cache, q)
    ensures |s'.workers| == |s.workers|
    ensures forall k :: 0 <= k < |s.workers| && k != i ==> s'.workers[k] == s.workers[k]
  {
    hide SameIdentity, ObservedTimes, Slug, Progress, OnlyEvicted, Produce, Reuse;
  }

  lemma OwnLook(tau: StorageKey -> Triple, c: Cache, jobs: seq<Job>, s: State, s': State, i: nat, p: CachePath)
    requires Batch(tau, jobs) && Filed(tau, c) && Filed(tau, s.cache) && StepBy(jobs, s, s', i, p)
    requires WorkerInv(tau, c, jobs[i], s.cache, s.workers[i])
    requires var w := s.workers[i]; w.Checking? || w.Listing? || w.Loading?
    ensures WorkerInv(tau, c, jobs[i], s'.cache, s'.workers[i])
  {
    hide SameIdentity, ObservedTimes, Slug;
    var path := DocumentPath(jobs[i]);
    assert Owns(tau, jobs[i], path) && !ToEvict(c, jobs[i], path);
    assert !s.workers[i].Listing? ==> At(s.cache, path) == At(c, path);
  }

  lemma OwnScan(tau: StorageKey -> Triple, c: Cache, jobs: seq<Job>, s: State, s': State, i: nat, p: CachePath)
    requires Batch(tau, jobs) && Filed(tau, c) && Filed(tau, s.cache) && StepBy(jobs, s, s', i, p)
    requires WorkerInv(tau, c, jobs[i], s.cache, s.workers[i]) && s.workers[i].Scanning?
    ensures WorkerInv(tau, c, jobs[i], s'.cache, s'.workers[i])
  {
    hide SameIdentity, ObservedTimes, Slug, After, Produce, Reuse, ResultOf;
    assert Owns(tau, jobs[i], DocumentPath(jobs[i])) && !ToEvict(c, jobs[i], DocumentPath(jobs[i]));
  }

  lemma OwnRead(tau: StorageKey -> Triple, c: Cache, jobs: seq<Job>, s: State, s': State, i: nat, p: CachePath)
    requires Batch(tau, jobs) && Filed(tau, c) && Filed(tau, s.cache) && StepBy(jobs, s, s', i, p)
    requires WorkerInv(tau, c, jobs[i], s.cache, s.workers[i]) && s.workers[i].Reading?
    ensures WorkerInv(tau, c, jobs[i], s'.cache, s'.workers[i])
  {
    hide SameIdentity, ObservedTimes, Slug, After, Produce, Reuse, ResultOf;
    var entry := s.workers[i].entry;
    if entry in s.cache && TripleOf(s.cache[entry]) == DocumentTriple(jobs[i]) {
      assert Owns(tau, jobs[i], entry);
      assert At(s.cache, entry) == At(c, entry);
    }
  }

  lemma OwnEvict(tau: StorageKey -> Triple, c: Cache, jobs: seq<Job>, s: State, s': State, i: nat, p: CachePath)
    requires Batch(tau, jobs) && Filed(tau, c) && Filed(tau, s.cache) && StepBy(jobs, s, s', i, p)
    requires WorkerInv(tau, c, jobs[i], s.cache, s.workers[i]) && s.workers[i].Evicting?
    ensures WorkerInv(tau, c, jobs[i], s'.cache, s'.workers[i])
  {
    hide SameIdentity, ObservedTimes, Slug, After, Produce, Reuse, ResultOf;
  }

  lemma OwnWrite(tau: StorageKey -> Triple, c: Cache, jobs: seq<Job>, s: State, s': State, i: nat, p: CachePath)
    requires Batch(tau, jobs) && Filed(tau, c) && Filed(tau, s.cache) && StepBy(jobs, s, s', i, p)
    requires WorkerInv(tau, c, jobs[i], s.cache, s.workers[i])
    requires s.workers[i].Writing?
    ensures WorkerInv(tau, c, jobs[i], s'.cache, s'.workers[i])
  {
    hide SameIdentity, ObservedTimes, Slug;
    assert Owns(tau, jobs[i], DocumentPath(jobs[i])) && !ToEvict(c, jobs[i], DocumentPath(jobs[i]));
  }

  /** A worker's own step keeps its record of progress. */
  lemma OwnStep(tau: StorageKey -> Triple, c: Cache, jobs: seq<Job>, s: State, s': State, i: nat, p: CachePath)
    requires Batch(tau, jobs) && Filed(tau, c) && Filed(tau, s.cache) && StepBy(jobs, s, s', i, p)
    requires WorkerInv(tau, c, jobs[i], s.cache, s.workers[i])
    ensures WorkerInv(tau, c, jobs[i], s'.cache, s'.workers[i])
  {
    match s.workers[i] {
      case Checking | Listing(_) | Loading => OwnLook(tau, c, jobs, s, s', i, p);
      case Scanning(_, _) => OwnScan(tau, c, jobs, s, s', i, p);
      case Reading(_, _, _) => OwnRead(tau, c, jobs, s, s', i, p);
      case Evicting(_, _, _) => OwnEvict(tau, c, jobs, s, s', i, p);
      case Writing => OwnWrite(tau, c, jobs, s, s', i, p);
    }
  }

  lemma OthersKeepProgress(tau: StorageKey -> Triple, c: Cache, j: Job, before: Cache, now: Cache, w: Worker)
    requires WorkerInv(tau, c, j, before, w)
    requires forall q :: Owns(tau, j, q) ==> At(now, q) == At(before, q)
    ensures WorkerInv(tau, c, j, now, w)
  {
  }

  lemma StepKeepsBatchInv(tau: StorageKey -> Triple, c: Cache, jobs: seq<Job>, s: State, s': State, i: nat,
                          p: CachePath)
    requires Batch(tau, jobs) && Filed(tau, c) && BatchInv(tau, c, jobs, s) && StepBy(jobs, s, s', i, p)
    ensures BatchInv(tau, c, jobs, s')
  {
    StepFootprint(tau, c, jobs, s, s', i, p);
    forall k | 0 <= k < |jobs| ensures WorkerInv(tau, c, jobs[k], s'.cache, s'.workers[k]) {
      if k == i {
        OwnStep(tau, c, jobs, s, s', i, p);
      } else {
        assert DocumentTriple(jobs[i]) != DocumentTriple(jobs[k]);
        OthersKeepProgress(tau, c, jobs[k], s.cache, s'.cache, s.workers[k]);
      }
    }
  }

  lemma {:induction false} TraceKeepsBatchInv(tau: StorageKey -> Triple, c: Cache, jobs: seq<Job>,
                                              states: seq<State>, k: nat)
    requires Batch(tau, jobs) && Filed(tau, c) && Trace(c, jobs, states) && k < |states|
    ensures BatchInv(tau, c, jobs, states[k])
  {
    if k > 0 {
      TraceKeepsBatchInv(tau, c, jobs, states, k - 1);
      assert Next(jobs, states[k - 1], states[k]);
      var i: nat, p :| StepBy(jobs, states[k - 1], states[k], i, p);
      StepKeepsBatchInv(tau, c, jobs, states[k - 1], states[k], i, p);
    }
  }

  // ---------------------------------------------------------------------------
  // The sequential order, footprint by footprint

  lemma StepIsLocal(tau: StorageKey -> Triple, c: Cache, now: Cache, j: Job)
    requires Filed(tau, c) && Filed(tau, now) && tau(j.document.storageKey) == DocumentTriple(j)
    requires forall p :: Owns(tau, j, p) ==> At(now, p) == At(c, p)
    ensures ResultOf(now, j.document, j.elapsedMs) == ResultOf(c, j.document, j.elapsedMs)
    ensures forall p :: Owns(tau, j, p) ==>
                          At(After(now, j.document, j.elapsedMs), p) == At(After(c, j.document, j.elapsedMs), p)
  {
    assert Owns(tau, j, DocumentPath(j));
    assert At(now, DocumentPath(j)) == At(c, DocumentPath(j));
  }

  lemma SequentialStep(tau: StorageKey -> Triple, c: Cache, j: Job)
    requires Filed(tau, c) && tau(j.document.storageKey) == DocumentTriple(j)
    ensures Filed(tau, After(c, j.document, j.elapsedMs))
    ensures forall p :: !Owns(tau, j, p) ==> At(After(c, j.document, j.elapsedMs), p) == At(c, p)
  {
  }

  /** Running the jobs one after the other leaves each footprint as its own job alone would. */
  lemma {:induction false} SequentialByFootprint(tau: StorageKey -> Triple, c: Cache, now: Cache, jobs: seq<Job>)
    requires Batch(tau, jobs) && Filed(tau, c) && Filed(tau, now)
    requires forall i, p :: 0 <= i < |jobs| && Owns(tau, jobs[i], p) ==> At(now, p) == At(c, p)
    ensures forall i, p :: 0 <= i < |jobs| && Owns(tau, jobs[i], p) ==>
                             At(RunCache(now, jobs), p) == At(After(c, jobs[i].document, jobs[i].elapsedMs), p)
    ensures forall p :: (forall i :: 0 <= i < |jobs| ==> !Owns(tau, jobs[i], p)) ==>
              At(RunCache(now, jobs), p) == At(now, p)
    ensures forall i :: 0 <= i < |jobs| ==>
                          RunResults(now, jobs)[i] == ResultOf(c, jobs[i].document, jobs[i].elapsedMs)
    decreases jobs
  {
    if jobs != [] {
      var j, rest := jobs[0], jobs[1..];
      var next := After(now, j.document, j.elapsedMs);
      assert forall p :: Owns(tau, j, p) ==> At(now, p) == At(c, p);
      StepIsLocal(tau, c, now, j);
      SequentialStep(tau, now, j);
      RestIsBatch(tau, jobs);
      forall i, p | 0 <= i < |rest| && Owns(tau, rest[i], p) ensures At(next, p) == At(c, p) {
        assert rest[i] == jobs[i + 1];
      }
      SequentialByFootprint(tau, c, next, rest);
      forall i, p | 0 <= i < |jobs| && Owns(tau, jobs[i], p)
        ensures At(RunCache(now, jobs), p) == At(After(c, jobs[i].document, jobs[i].elapsedMs), p)
      {
        if i == 0 {
          forall k | 0 <= k < |rest| ensures !Owns(tau, rest[k], p) {
            assert rest[k] == jobs[k + 1];
          }
        } else {
          assert rest[i - 1] == jobs[i];
        }
      }
      forall p | forall i :: 0 <= i < |jobs| ==> !Owns(tau, jobs[i], p)
        ensures At(RunCache(now, jobs), p) == At(now, p)
      {
        assert !Owns(tau, jobs[0], p);
        forall k | 0 <= k < |rest| ensures !Owns(tau, rest[k], p) {
          assert rest[k] == jobs[k + 1];
        }
      }
    }
  }

  lemma RestIsBatch(tau: StorageKey -> Triple, jobs: seq<Job>)
    requires Batch(tau, jobs) && jobs != []
    ensures Batch(tau, jobs[1..])
    ensures forall i :: 0 <= i < |jobs[1..]| ==> DocumentTriple(jobs[1..][i]) != DocumentTriple(jobs[0])
  {
    var rest := jobs[1..];
    forall i | 0 <= i < |rest| ensures DocumentTriple(rest[i]) != DocumentTriple(jobs[0]) {
      assert rest[i] == jobs[i + 1];
    }
    forall i, k | 0 <= i < k < |rest| ensures DocumentTriple(rest[i]) != DocumentTriple(rest[k]) {
      assert rest[i] == jobs[i + 1] && rest[k] == jobs[k + 1];
    }
  }

  lemma StepKeepsFiled(tau: StorageKey -> Triple, c: Cache, d: Document, elapsedMs: nat)
    requires Filed(tau, c) && tau(d.storageKey) == TripleOf(d)
    ensures Filed(tau, After(c, d, elapsedMs))
  {
  }

  lemma {:induction false} RunKeepsFiled(tau: StorageKey -> Triple, c: Cache, jobs: seq<Job>)
    requires Filed(tau, c) && Batch(tau, jobs)
    ensures Filed(tau, RunCache(c, jobs))
    decreases jobs
  {
    if jobs != [] {
      StepKeepsFiled(tau, c, jobs[0].document, jobs[0].elapsedMs);
      RestIsBatch(tau, jobs);
      RunKeepsFiled(tau, After(c, jobs[0].document, jobs[0].elapsedMs), jobs[1..]);
    }
  }

  // ---------------------------------------------------------------------------
  // Confluence

  lemma SameEverywhere(a: Cache, b: Cache)
    requires forall p :: At(a, p) == At(b, p)
    ensures a == b
  {
    forall p ensures p in a <==> p in b {
      assert At(a, p) == At(b, p);
    }
    forall p | p in a ensures a[p] == b[p] {
      assert At(a, p) == At(b, p);
    }
  }

  ghost predicate AllDone(jobs: seq<Job>, s: State) {
    |s.workers| == |jobs| && forall i :: 0 <= i < |s.workers| ==> s.workers[i].Done?
  }

  /** However the workers interleave: once all are done, cache and results are those of
      running the jobs one after the other. */
  lemma BatchIsConfluent(tau: StorageKey -> Triple, c: Cache, jobs: seq<Job>, states: seq<State>)
    requires Batch(tau, jobs) && Filed(tau, c) && Trace(c, jobs, states)
    requires AllDone(jobs, states[|states| - 1])
    ensures var last := states[|states| - 1];
            && last.cache == RunCache(c, jobs)
            && forall i :: 0 <= i < |last.workers| ==> last.workers[i] == Done(RunResults(c, jobs)[i])
  {
    var last := states[|states| - 1];
    TraceKeepsBatchInv(tau, c, jobs, states, |states| - 1);
    SequentialByFootprint(tau, c, c, jobs);
    forall p ensures At(last.cache, p) == At(RunCache(c, jobs), p) {
      if i :| 0 <= i < |jobs| && Owns(tau, jobs[i], p) {
        assert WorkerInv(tau, c, jobs[i], last.cache, last.workers[i]);
      }
    }
    SameEverywhere(last.cache, RunCache(c, jobs));
    forall i | 0 <= i < |jobs| ensures last.workers[i] == Done(RunResults(c, jobs)[i]) {
      assert WorkerInv(tau, c, jobs[i], last.cache, last.workers[i]);
    }
  }

  /** An entry of a job's footprint, in any reachable state, is what was there before or
      what the job leaves there; and that is decided for the whole footprint at once. */
  lemma FootprintOf(tau: StorageKey -> Triple, c: Cache, j: Job, now: Cache, w: Worker, p: CachePath)
    requires WorkerInv(tau, c, j, now, w) && Owns(tau, j, p) && p in now
    ensures At(now, p) == At(if w.Done? then After(c, j.document, j.elapsedMs) else c, p)
  {
    hide After, StageFits, ToEvict;
  }

  lemma SameFrom(x: Cache, now: Cache, p: CachePath)
    requires p in now && At(now, p) == At(x, p)
    ensures p in x && x[p] == now[p]
  {
  }

  lemma StateKeepsInv(tau: StorageKey -> Triple, c: Cache, jobs: seq<Job>, s: State, p: CachePath, q: CachePath)
    requires Batch(tau, jobs) && Inv(c) && BatchInv(tau, c, jobs, s) && p in s.cache
    requires q in s.cache && TripleOf(s.cache[p]) == TripleOf(s.cache[q])
    ensures p == PathOf(s.cache[p]) && p == q
  {
    hide After, Progress, StageFits, OnlyEvicted, TripleOf, PathOf;
    if i :| 0 <= i < |jobs| && Owns(tau, jobs[i], p) {
      var x := if s.workers[i].Done? then After(c, jobs[i].document, jobs[i].elapsedMs) else c;
      StepKeepsInv(c, jobs[i].document, jobs[i].elapsedMs);
      FootprintOf(tau, c, jobs[i], s.cache, s.workers[i], p);
      FootprintOf(tau, c, jobs[i], s.cache, s.workers[i], q);
      SameFrom(x, s.cache, p);
      SameFrom(x, s.cache, q);
    } else {
      SameFrom(c, s.cache, p);
      SameFrom(c, s.cache, q);
    }
  }

  /** In every reachable state of every batch, also after a failure: one document per triple,
      each at its own path. */
  lemma BatchKeepsInv(tau: StorageKey -> Triple, c: Cache, jobs: seq<Job>, states: seq<State>, k: nat)
    requires Batch(tau, jobs) && Filed(tau, c) && Inv(c) && Trace(c, jobs, states) && k < |states|
    ensures Inv(states[k].cache) && Filed(tau, states[k].cache)
  {
    hide After, Progress, StageFits, OnlyEvicted, Owns, TripleOf, PathOf;
    TraceKeepsBatchInv(tau, c, jobs, states, k);
    var now := states[k].cache;
    forall p | p in now ensures p == PathOf(now[p]) {
      StateKeepsInv(tau, c, jobs, states[k], p, p);
    }
    forall p, q | p in now && q in now && TripleOf(now[p]) == TripleOf(now[q]) ensures p == q {
      StateKeepsInv(tau, c, jobs, states[k], p, q);
    }
  }

  // ---------------------------------------------------------------------------
  // When a worker can fail

  ghost function Ahead(w: Worker): set<CachePath> {
    match w
    case Scanning(_, todo) => todo
    case Reading(_, todo, entry) => todo + {entry}
    case Evicting(_, todo, entry) => todo + {entry}
    case _ => {}
  }

  /** Some other worker is going to remove `p`. */
  ghost predicate Threatened(c: Cache, jobs: seq<Job>, i: int, p: CachePath) {
    exists k :: 0 <= k < |jobs| && k != i && ToEvict(c, jobs[k], p)
  }

  /** Worker `i` failed on an entry of its directory that another worker has removed. */
  ghost predicate FailedByRace(c: Cache, jobs: seq<Job>, now: Cache, i: int) {
    && 0 <= i < |jobs|
    && exists p: CachePath :: p.directory == DirectoryOf(jobs[i]) && p !in now && Threatened(c, jobs, i, p)
  }

  ghost predicate VanishInv(c: Cache, jobs: seq<Job>, s: State) {
    && |s.workers| == |jobs|
    && (forall i, p :: 0 <= i < |s.workers| && p in Ahead(s.workers[i]) ==> p in s.cache || Threatened(c, jobs, i, p))
    && (forall i :: 0 <= i < |s.workers| && s.workers[i].Failed? ==> FailedByRace(c, jobs, s.cache, i))
  }

  /** What a step removes was a sibling, to be evicted by the worker that takes the step. */
  lemma RemovedWasSibling(
      tau: StorageKey -> Triple, c: Cache, jobs: seq<Job>, s: State, s': State, i: nat, p: CachePath, q: CachePath)
    requires Batch(tau, jobs) && Filed(tau, c) && BatchInv(tau, c, jobs, s) && StepBy(jobs, s, s', i, p)
    requires q in s.cache && q !in s'.cache
    ensures ToEvict(c, jobs[i], q) && q !in Ahead(s'.workers[i])
  {
    assert WorkerInv(tau, c, jobs[i], s.cache, s.workers[i]);
    assert s.workers[i].Evicting? && q == s.workers[i].entry;
    assert Owns(tau, jobs[i], q);
    assert At(s.cache, q) == At(c, q);
  }

  /** A step adds to what lies ahead only what is in the cache. */
  lemma AheadOnlyShrinks(jobs: seq<Job>, s: State, s': State, i: nat, p: CachePath, k: nat, q: CachePath)
    requires StepBy(jobs, s, s', i, p) && k < |s'.workers| && q in Ahead(s'.workers[k]) && q !in s.cache
    ensures k < |s.workers| && q in Ahead(s.workers[k])
  {
    hide SameIdentity, ObservedTimes, Slug, TripleOf, Produce, Reuse, PathOf;
  }

  lemma StepFails(tau: StorageKey -> Triple, c: Cache, jobs: seq<Job>, s: State, s': State, i: nat, p: CachePath)
    requires Batch(tau, jobs) && BatchInv(tau, c, jobs, s) && StepBy(jobs, s, s', i, p) && VanishInv(c, jobs, s)
    requires s'.workers[i].Failed?
    ensures FailedByRace(c, jobs, s'.cache, i)
  {
    hide SameIdentity, ObservedTimes, Slug, TripleOf, Produce, Reuse, Progress, PathOf, Threatened;
    assert WorkerInv(tau, c, jobs[i], s.cache, s.workers[i]);
    OwnPathStays(tau, c, jobs[i], s.cache, s.workers[i]);
    assert s.workers[i].Reading? || s.workers[i].Evicting?;
    var entry := s.workers[i].entry;
    assert entry in Ahead(s.workers[i]);
  }

  /** No worker writes where another was to evict. */
  lemma GoneStaysGone(tau: StorageKey -> Triple, c: Cache, jobs: seq<Job>, s: State, s': State, i: nat, p: CachePath,
                      k: nat, q: CachePath)
    requires Batch(tau, jobs) && Filed(tau, c) && StepBy(jobs, s, s', i, p)
    requires k < |jobs| && ToEvict(c, jobs[k], q) && q !in s.cache
    ensures q !in s'.cache
  {
    hide SameIdentity, ObservedTimes, Slug, Produce, Reuse;
  }

  lemma FailureStays(tau: StorageKey -> Triple, c: Cache, jobs: seq<Job>, s: State, s': State, i: nat, p: CachePath,
                     k: nat)
    requires Batch(tau, jobs) && Filed(tau, c) && StepBy(jobs, s, s', i, p) && FailedByRace(c, jobs, s.cache, k)
    ensures FailedByRace(c, jobs, s'.cache, k)
  {
    hide Batch, Filed, StepBy, ToEvict, DirectoryOf;
    var q: CachePath :| q.directory == DirectoryOf(jobs[k]) && q !in s.cache && Threatened(c, jobs, k, q);
    var m :| 0 <= m < |jobs| && m != k && ToEvict(c, jobs[m], q);
    GoneStaysGone(tau, c, jobs, s, s', i, p, m, q);
  }

  lemma StepKeepsVanishInv(
      tau: StorageKey -> Triple, c: Cache, jobs: seq<Job>, s: State, s': State, i: nat, p: CachePath)
    requires Batch(tau, jobs) && Filed(tau, c) && BatchInv(tau, c, jobs, s) && StepBy(jobs, s, s', i, p)
    requires VanishInv(c, jobs, s)
    ensures VanishInv(c, jobs, s')
  {
    StepFootprint(tau, c, jobs, s, s', i, p);
    hide Stepped, Batch, Filed, Ahead, ToEvict, WorkerInv, Owns, FailedByRace;
    forall k, q | 0 <= k < |s'.workers| && q in Ahead(s'.workers[k]) && q !in s'.cache
      ensures Threatened(c, jobs, k, q)
    {
      if q in s.cache {
        RemovedWasSibling(tau, c, jobs, s, s', i, p, q);
        assert k != i;
      } else {
        AheadOnlyShrinks(jobs, s, s', i, p, k, q);
      }
    }
    forall k | 0 <= k < |s'.workers| && s'.workers[k].Failed? ensures FailedByRace(c, jobs, s'.cache, k) {
      if k == i {
        StepFails(tau, c, jobs, s, s', i, p);
      } else {
        FailureStays(tau, c, jobs, s, s', i, p, k);
      }
    }
  }

  lemma OwnPathStays(tau: StorageKey -> Triple, c: Cache, j: Job, now: Cache, w: Worker)
    requires tau(j.document.storageKey) == DocumentTriple(j) && WorkerInv(tau, c, j, now, w)
    ensures w.Loading? ==> DocumentPath(j) in now
  {
    if w.Loading? {
      assert Owns(tau, j, DocumentPath(j));
      assert At(now, DocumentPath(j)) == At(c, DocumentPath(j));
    }
  }

  lemma NothingVanishedYet(c: Cache, jobs: seq<Job>)
    ensures VanishInv(c, jobs, Start(c, jobs))
  {
  }

  lemma {:induction false} TraceKeepsVanishInv(tau: StorageKey -> Triple, c: Cache, jobs: seq<Job>,
                                               states: seq<State>, k: nat)
    requires Batch(tau, jobs) && Filed(tau, c) && Trace(c, jobs, states) && k < |states|
    ensures VanishInv(c, jobs, states[k])
  {
    hide BatchInv, VanishInv, StepBy, Batch, Filed, Start;
    if k == 0 {
      NothingVanishedYet(c, jobs);
    } else {
      TraceKeepsVanishInv(tau, c, jobs, states, k - 1);
      TraceKeepsBatchInv(tau, c, jobs, states, k - 1);
      assert Next(jobs, states[k - 1], states[k]);
      var i: nat, p :| StepBy(jobs, states[k - 1], states[k], i, p);
      StepKeepsVanishInv(tau, c, jobs, states[k - 1], states[k], i, p);
    }
  }

  /** Two workers share a directory in which one of them has something to evict. */
  ghost predicate Races(c: Cache, jobs: seq<Job>) {
    exists i, k, p :: 0 <= i < |jobs| && 0 <= k < |jobs| && k != i
                      && DirectoryOf(jobs[i]) == DirectoryOf(jobs[k]) && ToEvict(c, jobs[k], p)
  }

  ghost predicate SomeFailure(s: State) { exists i :: 0 <= i < |s.workers| && s.workers[i].Failed? }

  ghost predicate CanFail(c: Cache, jobs: seq<Job>) {
    exists states :: Trace(c, jobs, states) && SomeFailure(states[|states| - 1])
  }

  /** A failure takes two workers that share a directory, one of which has evicted something. */
  lemma FailureEvicts(tau: StorageKey -> Triple, c: Cache, jobs: seq<Job>, states: seq<State>)
    returns (i: nat, k: nat, p: CachePath)
    requires Batch(tau, jobs) && Filed(tau, c) && Trace(c, jobs, states) && SomeFailure(states[|states| - 1])
    ensures i < |jobs| && k < |jobs| && k != i && DirectoryOf(jobs[i]) == DirectoryOf(jobs[k])
    ensures ToEvict(c, jobs[k], p) && p !in states[|states| - 1].cache
  {
    TraceKeepsVanishInv(tau, c, jobs, states, |states| - 1);
    var last := states[|states| - 1];
    i :| 0 <= i < |last.workers| && last.workers[i].Failed?;
    p :| p.directory == DirectoryOf(jobs[i]) && p !in last.cache && Threatened(c, jobs, i, p);
    k :| 0 <= k < |jobs| && k != i && ToEvict(c, jobs[k], p);
  }

  ghost predicate Leads(jobs: seq<Job>, from: State, states: seq<State>, to: State) {
    && states != [] && states[0] == from && states[|states| - 1] == to
    && forall k :: 0 <= k < |states| - 1 ==> Next(jobs, states[k], states[k + 1])
  }

  lemma LeadsOn(jobs: seq<Job>, from: State, states: seq<State>, to: State, next: State, i: nat, p: CachePath)
    requires Leads(jobs, from, states, to) && StepBy(jobs, to, next, i, p)
    ensures Leads(jobs, from, states + [next], next)
  {
    var all := states + [next];
    forall k | 0 <= k < |all| - 1 ensures Next(jobs, all[k], all[k + 1]) {
      if k == |states| - 1 { assert all[k] == to; }
    }
  }

  /** From its start, a worker can get to the point of opening any entry of its directory
      that is not its own. */
  lemma LeadsToReading(jobs: seq<Job>, from: State, states: seq<State>, s: State, i: nat, q: CachePath)
    returns (more: seq<State>, to: State)
    requires Leads(jobs, from, states, s) && |s.workers| == |jobs| && i < |jobs| && s.workers[i].Checking?
    requires q in s.cache && q.directory == DirectoryOf(jobs[i]) && q.key != jobs[i].document.storageKey
    ensures Leads(jobs, from, more, to)
    ensures to.cache == s.cache && |to.workers| == |jobs|
    ensures to.workers[i].Reading? && to.workers[i].entry == q
    ensures forall k :: 0 <= k < |jobs| && k != i ==> to.workers[k] == s.workers[k]
  {
    var listing := set p | p in s.cache && p.directory == DirectoryOf(jobs[i]);
    assert q in listing;
    var stage := if DocumentPath(jobs[i]) in s.cache then Occupied else Fresh;
    var s1 := Moved(s, i, Listing(stage));
    LeadsOn(jobs, from, states, s, s1, i, q);
    var s2 := Moved(s1, i, Scanning(stage, listing));
    LeadsOn(jobs, from, states + [s1], s1, s2, i, q);
    to := Moved(s2, i, Reading(stage, listing - {q}, q));
    LeadsOn(jobs, from, states + [s1] + [s2], s2, to, i, q);
    more := states + [s1] + [s2] + [to];
  }

  lemma LeadsToEviction(jobs: seq<Job>, from: State, states: seq<State>, s: State, k: nat, q: CachePath)
    returns (more: seq<State>, to: State)
    requires Leads(jobs, from, states, s) && |s.workers| == |jobs| && k < |jobs| && s.workers[k].Reading?
    requires s.workers[k].entry == q && q in s.cache && TripleOf(s.cache[q]) == DocumentTriple(jobs[k])
    ensures Leads(jobs, from, more, to)
    ensures to.cache == s.cache - {q} && |to.workers| == |jobs|
    ensures forall i :: 0 <= i < |jobs| && i != k ==> to.workers[i] == s.workers[i]
  {
    hide Leads, TripleOf, Slug, SameIdentity, ObservedTimes, Produce, Reuse;
    var (stage, todo) := (s.workers[k].stage, s.workers[k].todo);
    var s1 := Moved(s, k, Evicting(stage, todo, q));
    LeadsOn(jobs, from, states, s, s1, k, q);
    to := State(s1.cache - {q}, s1.workers[k := Scanning(stage, todo)]);
    LeadsOn(jobs, from, states + [s1], s1, to, k, q);
    more := states + [s1] + [to];
  }

  lemma LeadsToFailure(jobs: seq<Job>, from: State, states: seq<State>, s: State, i: nat, q: CachePath)
    returns (more: seq<State>, to: State)
    requires Leads(jobs, from, states, s) && |s.workers| == |jobs| && i < |jobs| && s.workers[i].Reading?
    requires s.workers[i].entry == q && q !in s.cache
    ensures Leads(jobs, from, more, to) && SomeFailure(to)
  {
    hide Leads, TripleOf, Slug, SameIdentity, ObservedTimes, Produce, Reuse;
    to := Moved(s, i, Failed);
    LeadsOn(jobs, from, states, s, to, i, q);
    more := states + [to];
    assert to.workers[i].Failed?;
  }

  /** The interleaving that fails: worker `i` sees `q` in the listing and that it exists,
      worker `k` evicts it, worker `i` opens it. */
  lemma RaceCanFail(tau: StorageKey -> Triple, c: Cache, jobs: seq<Job>, i: nat, k: nat, q: CachePath)
    requires Batch(tau, jobs) && Filed(tau, c)
    requires i < |jobs| && k < |jobs| && k != i
    requires DirectoryOf(jobs[i]) == DirectoryOf(jobs[k]) && ToEvict(c, jobs[k], q)
    ensures CanFail(c, jobs)
  {
    hide TripleOf, Slug, Next;
    assert DocumentTriple(jobs[i]) != DocumentTriple(jobs[k]);
    var s0 := Start(c, jobs);
    assert Leads(jobs, s0, [s0], s0);
    var ss1, s1 := LeadsToReading(jobs, s0, [s0], s0, i, q);
    var ss2, s2 := LeadsToReading(jobs, s0, ss1, s1, k, q);
    var ss3, s3 := LeadsToEviction(jobs, s0, ss2, s2, k, q);
    var states, last := LeadsToFailure(jobs, s0, ss3, s3, i, q);
    assert Trace(c, jobs, states);
  }

  /** A parallel batch can fail exactly when two of its workers share a directory in which
      one of them has something to evict. */
  lemma BatchFailsIffRace(tau: StorageKey -> Triple, c: Cache, jobs: seq<Job>)
    requires Batch(tau, jobs) && Filed(tau, c)
    ensures CanFail(c, jobs) <==> Races(c, jobs)
  {
    if CanFail(c, jobs) {
      var states :| Trace(c, jobs, states) && SomeFailure(states[|states| - 1]);
      var i, k, p := FailureEvicts(tau, c, jobs, states);
    }
    if Races(c, jobs) {
      var i, k, q :| 0 <= i < |jobs| && 0 <= k < |jobs| && k != i
                     && DirectoryOf(jobs[i]) == DirectoryOf(jobs[k]) && ToEvict(c, jobs[k], q);
      RaceCanFail(tau, c, jobs, i, k, q);
    }
  }

  /** For instance: a cache holds an outdated build of one artifact, and a batch rebuilds that
      artifact beside another one whose namespace has the same directory. */
  lemma RebuildCanFail(stale: Document, d: Document, other: Document, elapsedMs: nat)
    requires TripleOf(stale) == TripleOf(d) && stale.storageKey != d.storageKey
    requires Slug(other.cacheNamespace) == Slug(d.cacheNamespace) && TripleOf(other) != TripleOf(d)
    requires other.storageKey != d.storageKey && other.storageKey != stale.storageKey
    ensures CanFail(map[PathOf(stale) := stale], [Job(d, elapsedMs), Job(other, elapsedMs)])
  {
    var tau := (key: StorageKey) => if key == other.storageKey then TripleOf(other) else TripleOf(d);
    var (c, jobs) := (map[PathOf(stale) := stale], [Job(d, elapsedMs), Job(other, elapsedMs)]);
    assert Batch(tau, jobs) && Filed(tau, c);
    assert DirectoryOf(jobs[1]) == DirectoryOf(jobs[0]) && ToEvict(c, jobs[0], PathOf(stale));
    assert Races(c, jobs);
    BatchFailsIffRace(tau, c, jobs);
  }

  // ---------------------------------------------------------------------------
  // What is left of a job, done or failed

  /** The footprint of a job is as the job leaves it, or as it was but for some evictions. */
  ghost predicate Left(tau: StorageKey -> Triple, c: Cache, j: Job, now: Cache) {
    || (forall p :: Owns(tau, j, p) ==> At(now, p) == At(After(c, j.document, j.elapsedMs), p))
    || OnlyEvicted(tau, c, j, now)
  }

  lemma HaltedLeaves(tau: StorageKey -> Triple, c: Cache, jobs: seq<Job>, s: State, i: nat)
    requires BatchInv(tau, c, jobs, s) && i < |jobs| && Halted(s.workers[i])
    ensures Left(tau, c, jobs[i], s.cache)
  {
    hide StageFits, After, OnlyEvicted, ToEvict, Unseen;
    assert WorkerInv(tau, c, jobs[i], s.cache, s.workers[i]);
  }

  lemma RunLeaves(tau: StorageKey -> Triple, c: Cache, jobs: seq<Job>, i: nat)
    requires Batch(tau, jobs) && Filed(tau, c) && i < |jobs|
    ensures Left(tau, c, jobs[i], RunCache(c, jobs))
  {
    hide RunCache, After, OnlyEvicted;
    SequentialByFootprint(tau, c, c, jobs);
  }

  ghost predicate Untouched(tau: StorageKey -> Triple, c: Cache, j: Job, now: Cache) {
    forall p :: Owns(tau, j, p) ==> At(now, p) == At(c, p)
  }

  /** What others do before and after makes no difference. */
  lemma LeftAmongOthers(tau: StorageKey -> Triple, c: Cache, before: Cache, after: Cache, now: Cache, j: Job)
    requires Filed(tau, c) && Filed(tau, before) && tau(j.document.storageKey) == DocumentTriple(j)
    requires Untouched(tau, c, j, before) && Left(tau, before, j, after) && Untouched(tau, after, j, now)
    ensures Left(tau, c, j, now)
  {
    hide After, Filed;
    StepIsLocal(tau, c, before, j);
    if OnlyEvicted(tau, before, j, after) {
      forall p | Owns(tau, j, p) ensures At(now, p) == At(c, p) || (ToEvict(c, j, p) && p !in now) {
        assert At(before, p) == At(c, p);
      }
    }
  }

  /** Nothing becomes outdated that was not so before. */
  lemma NothingNewToEvict(tau: StorageKey -> Triple, c: Cache, j: Job, now: Cache, p: CachePath)
    requires Left(tau, c, j, now) && Filed(tau, now) && ToEvict(now, j, p)
    ensures ToEvict(c, j, p)
  {
    hide Slug, SameIdentity, ObservedTimes;
    assert Owns(tau, j, p);
  }

  function Bare(d: Option<Document>): Option<Document> { if d.Some? then Some(Untimed(d.value)) else None }

  /** Running the job on what is left of it leads, times aside, to where it leads without. */
  lemma LeftIsRecovered(tau: StorageKey -> Triple, c: Cache, j: Job, now: Cache, p: CachePath, elapsedMs: nat,
                        elapsedMs': nat)
    requires tau(j.document.storageKey) == DocumentTriple(j) && Filed(tau, c) && Filed(tau, now)
    requires Left(tau, c, j, now) && Owns(tau, j, p)
    ensures Bare(At(After(now, j.document, elapsedMs'), p)) == Bare(At(After(c, j.document, elapsedMs), p))
  {
    hide Slug, ObservedTimes;
    assert Owns(tau, j, DocumentPath(j)) && !ToEvict(c, j, DocumentPath(j));
  }

  // ---------------------------------------------------------------------------
  // Every worker halts

  /** How many phases a worker has before it at most. */
  function Phase(w: Worker): nat {
    match w
    case Checking => 7
    case Listing(stage) => if stage == Mismatch then 3 else 6
    case Scanning(stage, _) => if stage == Mismatch then 2 else 5
    case Reading(stage, _, _) => if stage == Mismatch then 2 else 5
    case Evicting(stage, _, _) => if stage == Mismatch then 2 else 5
    case Loading => 4
    case Writing => 1
    case Done(_) => 0
    case Failed => 0
  }

  /** How long its scan goes on at most. */
  function Entries(w: Worker): nat {
    match w
    case Scanning(_, todo) => 3 * |todo|
    case Reading(_, todo, _) => 3 * |todo| + 2
    case Evicting(_, todo, _) => 3 * |todo| + 1
    case _ => 0
  }

  function Total(workers: seq<Worker>, f: Worker -> nat): nat {
    if workers == [] then 0 else f(workers[0]) + Total(workers[1..], f)
  }

  lemma {:induction false} TotalUpdate(workers: seq<Worker>, f: Worker -> nat, i: nat, w: Worker)
    requires i < |workers|
    ensures Total(workers[i := w], f) == Total(workers, f) - f(workers[i]) + f(w)
  {
    if i == 0 {
      assert workers[0 := w][1..] == workers[1..];
    } else {
      assert workers[i := w][1..] == workers[1..][i - 1 := w];
      TotalUpdate(workers[1..], f, i - 1, w);
    }
  }

  ghost predicate Advances(s: State, s': State, i: nat) {
    && i < |s.workers| && i < |s'.workers| && s'.workers == s.workers[i := s'.workers[i]]
    && (|| Phase(s'.workers[i]) < Phase(s.workers[i])
        || (&& Phase(s'.workers[i]) == Phase(s.workers[i])
            && Entries(s'.workers[i]) < Entries(s.workers[i])))
  }

  predicate Scans(w: Worker) { w.Scanning? || w.Reading? || w.Evicting? }

  lemma LookAdvances(jobs: seq<Job>, s: State, i: nat, p: CachePath)
    requires CanStep(jobs, s, i, p) && !Scans(s.workers[i])
    ensures Advances(s, Stepped(jobs, s, i, p), i)
  {
    hide SameIdentity, Slug, TripleOf, ObservedTimes, Produce, Reuse, Entries;
  }

  lemma ScanAdvances(jobs: seq<Job>, s: State, i: nat, p: CachePath)
    requires CanStep(jobs, s, i, p) && Scans(s.workers[i])
    ensures Advances(s, Stepped(jobs, s, i, p), i)
  {
    hide SameIdentity, Slug, TripleOf, ObservedTimes, Produce, Reuse, DirectoryOf;
    var todo := s.workers[i].todo;
    assert p in todo ==> |todo - {p}| == |todo| - 1;
  }

  /** A step ends a phase or shortens a scan. */
  lemma StepAdvances(jobs: seq<Job>, s: State, i: nat, p: CachePath)
    requires CanStep(jobs, s, i, p)
    ensures var s' := Stepped(jobs, s, i, p);
            && |s'.workers| == |s.workers|
            && (|| Total(s'.workers, Phase) < Total(s.workers, Phase)
                || (&& Total(s'.workers, Phase) == Total(s.workers, Phase)
                    && Total(s'.workers, Entries) < Total(s.workers, Entries)))
  {
    hide Stepped, Phase, Entries, Total;
    var s' := Stepped(jobs, s, i, p);
    if Scans(s.workers[i]) {
      ScanAdvances(jobs, s, i, p);
    } else {
      LookAdvances(jobs, s, i, p);
    }
    TotalUpdate(s.workers, Phase, i, s'.workers[i]);
    TotalUpdate(s.workers, Entries, i, s'.workers[i]);
  }

  ghost predicate AllHalted(jobs: seq<Job>, s: State) {
    |s.workers| == |jobs| && forall i :: 0 <= i < |jobs| ==> Halted(s.workers[i])
  }

  lemma EntryToLookAt(w: Worker) returns (p: CachePath)
    ensures w.Scanning? && w.todo != {} ==> p in w.todo
  {
    if w.Scanning? && w.todo != {} {
      p :| p in w.todo;
    } else {
      p :| true;
    }
  }

  /** Whatever has happened, the workers can go on until all have halted. */
  lemma {:induction false} Halts(jobs: seq<Job>, from: State, states: seq<State>, s: State)
    returns (more: seq<State>, to: State)
    requires Leads(jobs, from, states, s) && |s.workers| == |jobs|
    ensures Leads(jobs, from, more, to) && AllHalted(jobs, to)
    ensures forall i :: 0 <= i < |jobs| && Halted(s.workers[i]) ==> to.workers[i] == s.workers[i]
    decreases Total(s.workers, Phase), Total(s.workers, Entries)
  {
    if i :| 0 <= i < |jobs| && !Halted(s.workers[i]) {
      var p := EntryToLookAt(s.workers[i]);
      var next := Stepped(jobs, s, i, p);
      StepAdvances(jobs, s, i, p);
      LeadsOn(jobs, from, states, s, next, i, p);
      more, to := Halts(jobs, from, states + [next], next);
      forall k | 0 <= k < |jobs| && Halted(s.workers[k]) ensures to.workers[k] == s.workers[k] {
        assert next.workers[k] == s.workers[k];
      }
    } else {
      more, to := states, s;
    }
  }

  /** The workers of a batch in one interleaving: as long as some worker has not halted, any
      such worker takes a step on the shared cache. */
  method RunWorkers(jobs: seq<Job>, root: CacheRoot) returns (workers: seq<Worker>, ghost states: seq<State>)
    modifies root
    ensures Trace(old(root.files), jobs, states)
    ensures states[|states| - 1] == State(root.files, workers) && AllHalted(jobs, State(root.files, workers))
  {
    workers := seq(|jobs|, _ => Checking);
    states := [State(root.files, workers)];
    assert states[0] == Start(root.files, jobs);
    while exists i :: 0 <= i < |jobs| && !Halted(workers[i])
      invariant |workers| == |jobs|
      invariant Leads(jobs, Start(old(root.files), jobs), states, State(root.files, workers))
      decreases Total(workers, Phase), Total(workers, Entries)
    {
      var i :| 0 <= i < |jobs| && !Halted(workers[i]);
      var p := DocumentPath(jobs[i]);
      if workers[i].Scanning? && workers[i].todo != {} {
        p :| p in workers[i].todo;
      }
      ghost var now := State(root.files, workers);
      var next := Stepped(jobs, State(root.files, workers), i, p);
      StepAdvances(jobs, now, i, p);
      LeadsOn(jobs, Start(old(root.files), jobs), states, now, next, i, p);
      root.files, workers := next.cache, next.workers;
      states := states + [next];
    }
  }

  /** A failure in some interleaving is a failure in one that runs to the end. */
  lemma FailureIsFinal(c: Cache, jobs: seq<Job>, states: seq<State>) returns (all: seq<State>)
    requires Trace(c, jobs, states) && |states[|states| - 1].workers| == |jobs| && SomeFailure(states[|states| - 1])
    ensures Trace(c, jobs, all) && AllHalted(jobs, all[|all| - 1]) && SomeFailure(all[|all| - 1])
  {
    var last := states[|states| - 1];
    var to;
    all, to := Halts(jobs, Start(c, jobs), states, last);
    var i :| 0 <= i < |last.workers| && last.workers[i].Failed?;
    assert to.workers[i].Failed?;
  }
}
