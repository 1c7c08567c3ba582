/** The executor: what each planned artifact asks of the cache, and the loops that run
    batches, waves and whole plans against it. */
module Execution {
  import opened Ordering
  import opened Collections
  import opened Types
  import opened Planner
  import opened Plan
  import opened Resolution
  import opened ArtifactCache
  import opened CacheRace
  import opened Scheduler
  import Readiness

  // ---------------------------------------------------------------------------
  // The document a requirement asks for

  function RegionFor(regions: seq<CompileRegion>, scope: string): (found: Option<CompileRegion>)
    ensures found.Some? ==> found.value in regions && found.value.name == scope
    ensures found.None? ==> forall region :: region in regions ==> region.name != scope
  {
    if regions == [] then None
    else if regions[0].name == scope then Some(regions[0])
    else RegionFor(regions[1..], scope)
  }

  function KeyFor(p: BuildPlan, q: Requirement): StorageKey {
    match RegionFor(p.regions, q.scope)
    case None => ByRequirement(q)
    case Some(region) =>
      if region.cacheSharing != ContentAddressed then ByRequirement(q)
      else ByContent(region.equivalenceIdentity, q.artifactClass, q.backend, q.acquisition, q.portability,
                     q.rankDisposition, q.proof.targetAbi, q.proof.targetShapes, q.proof.targetTopology)
  }

  function SurfaceFor(surfaces: seq<CacheSurface>, scope: string): string {
    if surfaces == [] then "compile-cache"
    else if scope in surfaces[0].artifactScopes then surfaces[0].name
    else SurfaceFor(surfaces[1..], scope)
  }

  function NamespaceFor(o: Outcome, scope: string): string {
    match RegionFor(o.plan.regions, scope)
    case Some(region) => region.cacheNamespace
    case None => SurfaceFor(o.survey.cacheSurfaces, scope)
  }

  function DomainFor(p: BuildPlan, scope: string): string {
    match RegionFor(p.regions, scope)
    case Some(region) => region.invalidationDomain
    case None => scope
  }

  predicate AnchorLe(a: SourceAnchor, b: SourceAnchor) {
    StringLt(a.file, b.file) || (a.file == b.file && a.line <= b.line)
  }

  function AnchorsFor(p: BuildPlan, scope: string): seq<SourceAnchor> {
    SortDedup(FlatMap(Filter(p.regions, (region: CompileRegion) => region.name == scope),
                      (region: CompileRegion) => region.anchors), AnchorLe)
  }

  function EntryFor(closure: seq<ManifestEntry>, scope: string, c: ArtifactClass): Option<ManifestEntry> {
    if closure == [] then None
    else if closure[0].scope == scope && closure[0].artifactClass == c then Some(closure[0])
    else EntryFor(closure[1..], scope, c)
  }

  /** Every requirement has a closure entry of its scope and class. */
  predicate Closed(o: Outcome) {
    forall q | q in o.plan.requirements :: EntryFor(o.closure, q.scope, q.artifactClass).Some?
  }

  function Mapped<T, R>(x: Option<T>, f: T -> R): Option<R> { if x.Some? then Some(f(x.value)) else None }

  function DocumentFor(o: Outcome, q: Requirement): Document
    requires Closed(o) && q in o.plan.requirements
  {
    var region := RegionFor(o.plan.regions, q.scope);
    Document(
      (1, 0), KeyFor(o.plan, q), EntryFor(o.closure, q.scope, q.artifactClass).value.identity, q.scope,
      q.artifactClass, q.backend,
      Mapped(region, (x: CompileRegion) => x.stableIdentity),
      Mapped(region, (x: CompileRegion) => x.equivalenceIdentity),
      Mapped(region, (x: CompileRegion) => x.cacheSharing),
      NamespaceFor(o, q.scope), DomainFor(o.plan, q.scope), q.acquisition, q.rankDisposition,
      o.survey.engineRoot, o.survey.engineRevision, AnchorsFor(o.plan, q.scope), q.proof.rationale, Times(0, 0, 0))
  }

  // ---------------------------------------------------------------------------
  // What a list of nodes does to the cache

  datatype ExecutionError = MissingDependency(node: Handle) | UnknownArtifactNode(node: Handle) | CacheIo

  datatype NodeRecord = NodeRecord(
    name: Handle, wave: nat, kind: NodeKind, queue: QueueKind, disposition: Disposition, dependencies: seq<Handle>)

  datatype ArtifactRecord = ArtifactRecord(result: Materialized, rankCount: nat)

  datatype NodeResult = NodeResult(record: NodeRecord, artifact: Option<ArtifactRecord>)

  /** One execution: the nodes by name, what each artifact node asks of the cache and how
      long that takes, and the nodes a warmup obligation stands behind. */
  datatype Build = Build(index: NodeIndex, job: Handle -> Option<Job>, warmups: set<Handle>)

  predicate IsRequired(o: Outcome, name: Handle) { name.Artifact? && name.requirement in o.plan.requirements }

  function BuildOf(o: Outcome, clock: Handle -> nat): Build
    requires Closed(o)
  {
    Build(IndexOf(o.plan.graph.nodes),
          (name: Handle) =>
            if IsRequired(o, name) then Some(Job(DocumentFor(o, name.requirement), clock(name))) else None,
          WarmupIndex(o.plan.obligations).Keys)
  }

  predicate Materializes(kind: NodeKind) { kind == CompileNode || kind == MaterializeNode }

  predicate Resolvable(b: Build, name: Handle)
    requires name in b.index
  {
    Materializes(b.index[name].kind) ==> b.job(name).Some?
  }

  ghost predicate AllResolvable(b: Build, names: seq<Handle>)
    requires Known(b.index, names)
  {
    forall n :: n in names ==> Resolvable(b, n)
  }

  /** What the executor takes for granted: nodes are indexed by their names, and every
      warmup node has its obligation. */
  ghost predicate Prepared(b: Build) {
    forall n :: n in b.index ==> b.index[n].name == n && (b.index[n].kind == WarmupNode ==> n in b.warmups)
  }

  function JobsAt(b: Build, name: Handle): seq<Job> {
    if name in b.index && Materializes(b.index[name].kind) && b.job(name).Some? then [b.job(name).value] else []
  }

  function JobsOf(b: Build, names: seq<Handle>): seq<Job> {
    if names == [] then [] else JobsOf(b, names[..|names| - 1]) + JobsAt(b, names[|names| - 1])
  }

  /** The cache after these nodes have run in this order. */
  function CacheAfter(b: Build, c: Cache, names: seq<Handle>): Cache { RunCache(c, JobsOf(b, names)) }

  function RecordOf(node: Node, artifact: Option<ArtifactRecord>): NodeRecord {
    NodeRecord(node.name, node.wave, node.kind, node.queue,
               if artifact.Some? then artifact.value.result.disposition else Executed, node.dependencies)
  }

  /** What a node reports, given what came of its artifact if it has one. */
  function Answer(b: Build, name: Handle, came: seq<Materialized>): NodeResult
    requires name in b.index
  {
    var node := b.index[name];
    var artifact := if came == [] then None else Some(ArtifactRecord(came[0], |node.rankScope|));
    NodeResult(RecordOf(node, artifact), artifact)
  }

  function ResultAt(b: Build, c: Cache, name: Handle): NodeResult
    requires name in b.index
  {
    Answer(b, name, RunResults(c, JobsAt(b, name)))
  }

  function ResultsOf(b: Build, c: Cache, names: seq<Handle>): (r: seq<NodeResult>)
    requires Known(b.index, names)
    ensures |r| == |names|
  {
    if names == [] then []
    else
      var front := names[..|names| - 1];
      ResultsOf(b, c, front) + [ResultAt(b, CacheAfter(b, c, front), names[|names| - 1])]
  }

  lemma {:induction false} RunCacheAppend(c: Cache, first: seq<Job>, then_: seq<Job>)
    ensures RunCache(c, first + then_) == RunCache(RunCache(c, first), then_)
    decreases first
  {
    if first == [] {
      assert first + then_ == then_;
    } else {
      assert (first + then_)[1..] == first[1..] + then_;
      RunCacheAppend(After(c, first[0].document, first[0].elapsedMs), first[1..], then_);
    }
  }

  lemma CacheAfterSnoc(b: Build, c: Cache, names: seq<Handle>, name: Handle)
    ensures CacheAfter(b, c, names + [name]) == RunCache(CacheAfter(b, c, names), JobsAt(b, name))
  {
    assert (names + [name])[..|names|] == names;
    RunCacheAppend(c, JobsOf(b, names), JobsAt(b, name));
  }

  lemma ResultsOfSnoc(b: Build, c: Cache, names: seq<Handle>, name: Handle)
    requires Known(b.index, names) && name in b.index
    ensures ResultsOf(b, c, names + [name]) == ResultsOf(b, c, names) + [ResultAt(b, CacheAfter(b, c, names), name)]
  {
    assert (names + [name])[..|names|] == names;
  }

  lemma SplitLast<T>(first: seq<T>, then_: seq<T>)
    requires then_ != []
    ensures var front, last := then_[..|then_| - 1], then_[|then_| - 1];
            then_ == front + [last] && first + then_ == first + front + [last]
  {
  }

  lemma {:induction false} CacheAppend(b: Build, c: Cache, first: seq<Handle>, then_: seq<Handle>)
    ensures CacheAfter(b, c, first + then_) == CacheAfter(b, CacheAfter(b, c, first), then_)
    decreases |then_|
  {
    if then_ == [] {
      assert first + then_ == first;
    } else {
      var front, last := then_[..|then_| - 1], then_[|then_| - 1];
      SplitLast(first, then_);
      CacheAppend(b, c, first, front);
      CacheAfterSnoc(b, c, first + front, last);
      CacheAfterSnoc(b, CacheAfter(b, c, first), front, last);
    }
  }

  lemma Regroup<T>(a: seq<T>, b: seq<T>, x: T)
    ensures a + b + [x] == a + (b + [x])
  {
  }

  lemma ResultsAppendStep(b: Build, c: Cache, first: seq<Handle>, front: seq<Handle>, last: Handle)
    requires Known(b.index, first) && Known(b.index, front) && last in b.index
    requires ResultsOf(b, c, first + front) == ResultsOf(b, c, first) + ResultsOf(b, CacheAfter(b, c, first), front)
    requires CacheAfter(b, c, first + front) == CacheAfter(b, CacheAfter(b, c, first), front)
    ensures ResultsOf(b, c, first + front + [last]) ==
              ResultsOf(b, c, first) + ResultsOf(b, CacheAfter(b, c, first), front + [last])
  {
    var x := ResultAt(b, CacheAfter(b, c, first + front), last);
    ResultsOfSnoc(b, c, first + front, last);
    ResultsOfSnoc(b, CacheAfter(b, c, first), front, last);
    Regroup(ResultsOf(b, c, first), ResultsOf(b, CacheAfter(b, c, first), front), x);
  }

  lemma {:induction false} ResultsAppend(b: Build, c: Cache, first: seq<Handle>, then_: seq<Handle>)
    requires Known(b.index, first) && Known(b.index, then_)
    ensures ResultsOf(b, c, first + then_) == ResultsOf(b, c, first) + ResultsOf(b, CacheAfter(b, c, first), then_)
    decreases |then_|
  {
    if then_ == [] {
      assert first + then_ == first;
    } else {
      var front, last := then_[..|then_| - 1], then_[|then_| - 1];
      SplitLast(first, then_);
      ResultsAppend(b, c, first, front);
      CacheAppend(b, c, first, front);
      ResultsAppendStep(b, c, first, front, last);
    }
  }

  lemma RunAppend(b: Build, c: Cache, first: seq<Handle>, then_: seq<Handle>)
    requires Known(b.index, first) && Known(b.index, then_)
    ensures CacheAfter(b, c, first + then_) == CacheAfter(b, CacheAfter(b, c, first), then_)
    ensures ResultsOf(b, c, first + then_) == ResultsOf(b, c, first) + ResultsOf(b, CacheAfter(b, c, first), then_)
  {
    CacheAppend(b, c, first, then_);
    ResultsAppend(b, c, first, then_);
  }

  // ---------------------------------------------------------------------------
  // Nodes, batches, waves

  method ExecuteNode(b: Build, name: Handle, root: CacheRoot) returns (r: Result<NodeResult, ExecutionError>)
    requires Prepared(b) && name in b.index
    modifies root
    ensures r.Success? <==> Resolvable(b, name)
    ensures r.Failure? ==> r.error == UnknownArtifactNode(name) && root.files == old(root.files)
    ensures r.Success? ==> r.value == ResultAt(b, old(root.files), name)
    ensures r.Success? ==> root.files == RunCache(old(root.files), JobsAt(b, name))
    ensures Inv(old(root.files)) ==> Inv(root.files)
  {
    if Inv(root.files) { RunKeepsInv(root.files, JobsAt(b, name)); }
    var node := b.index[name];
    match node.kind {
      case CompileNode | MaterializeNode =>
        var job := b.job(name);
        if job.None? {
          return Failure(UnknownArtifactNode(name));
        }
        var result := root.MaterializeArtifact(job.value.document, job.value.elapsedMs);
        assert RunCache(old(root.files), [job.value]) ==
               After(old(root.files), job.value.document, job.value.elapsedMs);
        var artifact := ArtifactRecord(result, |node.rankScope|);
        return Success(NodeResult(RecordOf(node, Some(artifact)), Some(artifact)));
      case TransferNode | WarmupNode | AssembleNode | VerifyNode =>
        return Success(NodeResult(RecordOf(node, None), None));
    }
  }

  lemma ResolvableSnoc(b: Build, names: seq<Handle>, i: nat)
    requires i < |names| && Known(b.index, names)
    ensures Known(b.index, names[..i]) && Known(b.index, names[..i + 1]) && names[i] in b.index
    ensures AllResolvable(b, names[..i + 1]) <==> AllResolvable(b, names[..i]) && Resolvable(b, names[i])
    ensures names[..i + 1] == names[..i] + [names[i]]
  {
    forall n | n in names[..i] || n == names[i] ensures n in names[..i + 1] {}
  }

  ghost predicate FirstUnresolved(b: Build, names: seq<Handle>, k: nat)
    requires Known(b.index, names)
  {
    k < |names| && !Resolvable(b, names[k]) && AllResolvable(b, names[..k])
  }

  /** The nodes of a batch run one after the other, up to the first without a requirement. */
  ghost predicate RunsInTurn(b: Build, names: seq<Handle>, c: Cache, c': Cache,
                             r: Result<seq<NodeResult>, ExecutionError>)
    requires Known(b.index, names)
  {
    match r
    case Success(v) => AllResolvable(b, names) && c' == CacheAfter(b, c, names) && v == ResultsOf(b, c, names)
    case Failure(e) =>
      exists k: nat :: FirstUnresolved(b, names, k) && e == UnknownArtifactNode(names[k])
                       && c' == CacheAfter(b, c, names[..k])
  }

  /** What the thread of one node hands back when it is joined. */
  function Joined(b: Build, name: Handle, w: seq<Worker>): Result<NodeResult, ExecutionError>
    requires name in b.index && |w| == |JobsAt(b, name)|
  {
    if !Resolvable(b, name) then Failure(UnknownArtifactNode(name))
    else if w == [] then Success(Answer(b, name, []))
    else if w[0].Done? then Success(Answer(b, name, [w[0].result]))
    else Failure(CacheIo)
  }

  /** Joining the threads of a batch in the order of its nodes: the results, or the first
      failure. */
  function Collect(b: Build, names: seq<Handle>, workers: seq<Worker>): Result<seq<NodeResult>, ExecutionError>
    requires Known(b.index, names) && |workers| == |JobsOf(b, names)|
  {
    if names == [] then Success([])
    else
      var m := |names| - 1;
      var k := |JobsOf(b, names[..m])|;
      var front := Collect(b, names[..m], workers[..k]);
      if front.Failure? then front
      else
        var last := Joined(b, names[m], workers[k..]);
        if last.Success? then Success(front.value + [last.value]) else Failure(last.error)
  }

  ghost predicate Interleaves(b: Build, names: seq<Handle>, c: Cache, c': Cache,
                              r: Result<seq<NodeResult>, ExecutionError>, states: seq<State>)
    requires Known(b.index, names)
  {
    && Trace(c, JobsOf(b, names), states)
    && var last := states[|states| - 1];
       AllHalted(JobsOf(b, names), last) && last.cache == c' && r == Collect(b, names, last.workers)
  }

  /** The nodes of a batch run at once, in some interleaving of their steps on the cache. */
  ghost predicate RunsAtOnce(b: Build, names: seq<Handle>, c: Cache, c': Cache,
                             r: Result<seq<NodeResult>, ExecutionError>)
    requires Known(b.index, names)
  {
    exists states :: Interleaves(b, names, c, c', r, states)
  }

  /** A batch and how its wave runs it. */
  datatype Step = Step(names: seq<Handle>, parallel: bool)

  predicate Parallel(d: QueueDiscipline) { d == ParallelPerRank }

  ghost predicate BatchRuns(b: Build, step: Step, c: Cache, c': Cache, r: Result<seq<NodeResult>, ExecutionError>)
    requires Known(b.index, step.names)
  {
    if step.parallel then RunsAtOnce(b, step.names, c, c', r) else RunsInTurn(b, step.names, c, c', r)
  }

  method ExecuteInTurn(b: Build, ready: seq<Handle>, root: CacheRoot)
    returns (r: Result<seq<NodeResult>, ExecutionError>)
    requires Prepared(b) && Known(b.index, ready)
    modifies root
    ensures RunsInTurn(b, ready, old(root.files), root.files, r)
  {
    var results := [];
    for i := 0 to |ready|
      invariant AllResolvable(b, ready[..i])
      invariant results == ResultsOf(b, old(root.files), ready[..i])
      invariant root.files == CacheAfter(b, old(root.files), ready[..i])
    {
      ResolvableSnoc(b, ready, i);
      CacheAfterSnoc(b, old(root.files), ready[..i], ready[i]);
      ResultsOfSnoc(b, old(root.files), ready[..i], ready[i]);
      var step := ExecuteNode(b, ready[i], root);
      if step.Failure? {
        assert FirstUnresolved(b, ready, i);
        return Failure(step.error);
      }
      results := results + [step.value];
    }
    assert ready[..|ready|] == ready;
    return Success(results);
  }

  lemma JobsSnoc(b: Build, names: seq<Handle>, i: nat)
    requires i < |names|
    ensures names[..i + 1][..i] == names[..i]
    ensures JobsOf(b, names[..i + 1]) == JobsOf(b, names[..i]) + JobsAt(b, names[i])
    ensures |JobsOf(b, names[..i + 1])| <= |JobsOf(b, names)|
  {
    assert names[..i + 1][..i] == names[..i];
    JobsPrefix(b, names, i + 1);
  }

  lemma {:induction false} JobsPrefix(b: Build, names: seq<Handle>, i: nat)
    requires i <= |names|
    ensures |JobsOf(b, names[..i])| <= |JobsOf(b, names)|
  {
    if i == |names| {
      assert names[..i] == names;
    } else {
      var front := names[..|names| - 1];
      assert front[..i] == names[..i];
      JobsPrefix(b, front, i);
    }
  }

  lemma CollectSnoc(b: Build, names: seq<Handle>, workers: seq<Worker>, i: nat)
    requires Known(b.index, names) && i < |names| && |workers| == |JobsOf(b, names)|
    ensures var (k, k') := (|JobsOf(b, names[..i])|, |JobsOf(b, names[..i + 1])|);
            && k <= k' <= |workers| && k' == k + |JobsAt(b, names[i])|
            && var front := Collect(b, names[..i], workers[..k]);
               var last := Joined(b, names[i], workers[k..k']);
               Collect(b, names[..i + 1], workers[..k']) ==
                 if front.Failure? then front
                 else if last.Success? then Success(front.value + [last.value]) else Failure(last.error)
  {
    hide Joined;
    JobsSnoc(b, names, i);
    var (k, k') := (|JobsOf(b, names[..i])|, |JobsOf(b, names[..i + 1])|);
    assert workers[..k'][..k] == workers[..k] && workers[..k'][k..] == workers[k..k'];
  }

  /** Joins the threads of a batch in turn; the first failure is kept. */
  method JoinAll(b: Build, ready: seq<Handle>, workers: seq<Worker>)
    returns (r: Result<seq<NodeResult>, ExecutionError>)
    requires Known(b.index, ready) && |workers| == |JobsOf(b, ready)|
    ensures r == Collect(b, ready, workers)
  {
    hide Collect, Joined, JobsOf, JobsAt;
    r := Success([]);
    var k := 0;
    CollectNone(b);
    assert workers[..0] == [] && ready[..0] == [];
    for i := 0 to |ready|
      invariant k == |JobsOf(b, ready[..i])| <= |workers|
      invariant r == Collect(b, ready[..i], workers[..k])
    {
      CollectSnoc(b, ready, workers, i);
      var n := |JobsAt(b, ready[i])|;
      if r.Success? {
        var last := Joined(b, ready[i], workers[k..k + n]);
        r := if last.Success? then Success(r.value + [last.value]) else Failure(last.error);
      }
      k := k + n;
    }
    assert ready[..|ready|] == ready && workers[..|workers|] == workers;
  }

  lemma CollectNone(b: Build)
    ensures JobsOf(b, []) == [] && Collect(b, [], []) == Success([])
  {
  }

  /** All threads are started before any is joined. */
  method ExecuteAtOnce(b: Build, ready: seq<Handle>, root: CacheRoot)
    returns (r: Result<seq<NodeResult>, ExecutionError>)
    requires Prepared(b) && Known(b.index, ready)
    modifies root
    ensures RunsAtOnce(b, ready, old(root.files), root.files, r)
  {
    hide Collect, Joined, JobsOf, Trace;
    var workers, states := RunWorkers(JobsOf(b, ready), root);
    r := JoinAll(b, ready, workers);
    assert Interleaves(b, ready, old(root.files), root.files, r, states);
  }

  /** One batch. A sequential batch stops at the first node without a requirement; the
      workers of a parallel batch all run, and the first failure is reported. */
  method ExecuteBatch(b: Build, ready: seq<Handle>, parallel: bool, root: CacheRoot)
    returns (r: Result<seq<NodeResult>, ExecutionError>)
    requires Prepared(b) && Known(b.index, ready)
    modifies root
    ensures BatchRuns(b, Step(ready, parallel), old(root.files), root.files, r)
  {
    if parallel {
      r := ExecuteAtOnce(b, ready, root);
    } else {
      r := ExecuteInTurn(b, ready, root);
    }
  }

  function RecordName(r: NodeResult): Handle { r.record.name }

  lemma {:induction false} ResultNames(b: Build, c: Cache, names: seq<Handle>)
    requires Prepared(b) && Known(b.index, names)
    ensures Map(ResultsOf(b, c, names), RecordName) == names
  {
    if names != [] {
      var m := |names| - 1;
      assert names == names[..m] + [names[m]];
      ResultNames(b, c, names[..m]);
      assert Map(ResultsOf(b, c, names), RecordName) == Map(ResultsOf(b, c, names[..m]), RecordName) + [names[m]];
    }
  }

  lemma JoinedExactly(b: Build, name: Handle, w: seq<Worker>)
    requires name in b.index && |w| == |JobsAt(b, name)|
    ensures var r := Joined(b, name, w);
            && (r.Success? <==> Resolvable(b, name) && forall x :: x in w ==> x.Done?)
            && (r.Failure? ==>
                  || (r.error == UnknownArtifactNode(name) && !Resolvable(b, name))
                  || (r.error == CacheIo && exists x :: x in w && !x.Done?))
  {
    hide Answer;
  }

  /** A joined batch succeeds exactly when every node has its requirement and every worker
      is done; an I/O error stands for a worker that is not. */
  lemma {:induction false} CollectExactly(b: Build, names: seq<Handle>, workers: seq<Worker>)
    requires Known(b.index, names) && |workers| == |JobsOf(b, names)|
    ensures var r := Collect(b, names, workers);
            && (r.Success? <==> AllResolvable(b, names) && forall w :: w in workers ==> w.Done?)
            && (r.Failure? ==>
                  match r.error
                  case UnknownArtifactNode(n) => n in names && !Resolvable(b, n)
                  case CacheIo => exists w :: w in workers && !w.Done?
                  case MissingDependency(_) => false)
  {
    hide Joined, Answer, Resolvable, JobsAt;
    if names != [] {
      var m := |names| - 1;
      ResolvableSnoc(b, names, m);
      assert names[..m + 1] == names;
      var k := |JobsOf(b, names[..m])|;
      CollectExactly(b, names[..m], workers[..k]);
      JoinedExactly(b, names[m], workers[k..]);
      assert workers == workers[..k] + workers[k..];
      assert forall w :: w in workers <==> w in workers[..k] || w in workers[k..];
    }
  }

  lemma JoinName(b: Build, name: Handle, w: seq<Worker>)
    requires Prepared(b) && name in b.index && |w| == |JobsAt(b, name)| && Joined(b, name, w).Success?
    ensures RecordName(Joined(b, name, w).value) == name
  {
  }

  lemma CollectLast(b: Build, front: seq<Handle>, last: Handle, workers: seq<Worker>)
    requires Known(b.index, front) && last in b.index && |workers| == |JobsOf(b, front + [last])|
    requires Collect(b, front + [last], workers).Success?
    ensures var k := |JobsOf(b, front)|;
            && k <= |workers| && |workers| - k == |JobsAt(b, last)|
            && Collect(b, front, workers[..k]).Success? && Joined(b, last, workers[k..]).Success?
            && Collect(b, front + [last], workers).value ==
                 Collect(b, front, workers[..k]).value + [Joined(b, last, workers[k..]).value]
  {
    hide Joined;
    assert (front + [last])[..|front|] == front;
  }

  lemma {:induction false} CollectNames(b: Build, names: seq<Handle>, workers: seq<Worker>)
    requires Prepared(b) && Known(b.index, names) && |workers| == |JobsOf(b, names)|
    requires Collect(b, names, workers).Success?
    ensures Map(Collect(b, names, workers).value, RecordName) == names
  {
    if names != [] {
      hide Joined, Prepared, Collect, JobsOf, JobsAt, Map;
      var (front, last) := (names[..|names| - 1], names[|names| - 1]);
      assert names == front + [last];
      CollectLast(b, front, last, workers);
      var k := |JobsOf(b, front)|;
      CollectNames(b, front, workers[..k]);
      JoinName(b, last, workers[k..]);
      MapSnoc(Collect(b, front, workers[..k]).value, Joined(b, last, workers[k..]).value, RecordName);
    }
  }

  lemma {:induction false} RunResultsAppend(c: Cache, first: seq<Job>, then_: seq<Job>)
    ensures RunResults(c, first + then_) == RunResults(c, first) + RunResults(RunCache(c, first), then_)
    decreases first
  {
    if first == [] {
      assert first + then_ == then_;
    } else {
      assert (first + then_)[1..] == first[1..] + then_;
      RunResultsAppend(After(c, first[0].document, first[0].elapsedMs), first[1..], then_);
    }
  }

  /** Workers that came to what a sequential run gives are joined to its results. */
  lemma {:induction false} CollectSequential(b: Build, c: Cache, names: seq<Handle>, workers: seq<Worker>)
    requires Known(b.index, names) && AllResolvable(b, names) && |workers| == |JobsOf(b, names)|
    requires forall i :: 0 <= i < |workers| ==> workers[i] == Done(RunResults(c, JobsOf(b, names))[i])
    ensures Collect(b, names, workers) == Success(ResultsOf(b, c, names))
  {
    hide Answer;
    if names != [] {
      var m := |names| - 1;
      var (front, last) := (JobsOf(b, names[..m]), JobsAt(b, names[m]));
      RunResultsAppend(c, front, last);
      CollectSequential(b, c, names[..m], workers[..|front|]);
      var came := RunResults(CacheAfter(b, c, names[..m]), last);
      assert |came| == |last| <= 1;
      assert last != [] ==> workers[|front|] == Done(came[0]) && came == [came[0]];
    }
  }

  lemma BatchNames(b: Build, step: Step, c: Cache, c': Cache, v: seq<NodeResult>)
    requires Prepared(b) && Known(b.index, step.names) && BatchRuns(b, step, c, c', Success(v))
    ensures Map(v, RecordName) == step.names && AllResolvable(b, step.names)
  {
    if step.parallel {
      var states: seq<State> :| Interleaves(b, step.names, c, c', Success(v), states);
      CollectNames(b, step.names, states[|states| - 1].workers);
      CollectExactly(b, step.names, states[|states| - 1].workers);
    } else {
      ResultNames(b, c, step.names);
    }
  }

  // ---------------------------------------------------------------------------
  // Batches in turn

  ghost predicate AllKnown(b: Build, steps: seq<Step>) {
    forall step :: step in steps ==> Known(b.index, step.names)
  }

  function BatchesOf(steps: seq<Step>): seq<seq<Handle>> {
    seq(|steps|, i requires 0 <= i < |steps| => steps[i].names)
  }

  /** Every batch ran and succeeded. */
  ghost predicate Completed(b: Build, steps: seq<Step>, c: Cache, c': Cache, v: seq<NodeResult>)
    requires AllKnown(b, steps)
    decreases |steps|
  {
    if steps == [] then c' == c && v == []
    else
      var m := |steps| - 1;
      exists mid, front, last :: Completed(b, steps[..m], c, mid, front)
                                 && BatchRuns(b, steps[m], mid, c', Success(last)) && v == front + last
  }

  /** Some batch failed after all before it had succeeded. */
  ghost predicate Interrupted(b: Build, steps: seq<Step>, c: Cache, c': Cache, e: ExecutionError)
    requires AllKnown(b, steps)
  {
    exists k: nat, mid, v :: k < |steps| && Completed(b, steps[..k], c, mid, v)
                             && BatchRuns(b, steps[k], mid, c', Failure(e))
  }

  /** One possible execution of these batches, with these nodes left over at the end. */
  ghost predicate Executes(b: Build, steps: seq<Step>, pending: seq<Handle>, c: Cache, c': Cache,
                           r: Result<seq<NodeResult>, ExecutionError>)
    requires AllKnown(b, steps)
  {
    match r
    case Success(v) => pending == [] && Completed(b, steps, c, c', v)
    case Failure(e) =>
      || Interrupted(b, steps, c, c', e)
      || (pending != [] && e == MissingDependency(pending[0]) && exists v :: Completed(b, steps, c, c', v))
  }

  lemma CompletedSnoc(b: Build, steps: seq<Step>, step: Step, c: Cache, mid: Cache, c': Cache,
                      v: seq<NodeResult>, last: seq<NodeResult>)
    requires AllKnown(b, steps) && Known(b.index, step.names)
    requires Completed(b, steps, c, mid, v) && BatchRuns(b, step, mid, c', Success(last))
    ensures AllKnown(b, steps + [step]) && Completed(b, steps + [step], c, c', v + last)
  {
    hide BatchRuns;
    assert (steps + [step])[..|steps|] == steps;
  }

  lemma CompletedLast(b: Build, steps: seq<Step>, c: Cache, c': Cache, v: seq<NodeResult>)
    returns (mid: Cache, front: seq<NodeResult>, last: seq<NodeResult>)
    requires AllKnown(b, steps) && steps != [] && Completed(b, steps, c, c', v)
    ensures var m := |steps| - 1;
            && AllKnown(b, steps[..m]) && Completed(b, steps[..m], c, mid, front)
            && BatchRuns(b, steps[m], mid, c', Success(last)) && v == front + last
  {
    hide BatchRuns;
    var m := |steps| - 1;
    mid, front, last :| Completed(b, steps[..m], c, mid, front)
                        && BatchRuns(b, steps[m], mid, c', Success(last)) && v == front + last;
  }

  lemma NothingCompleted(b: Build, c: Cache, c': Cache, v: seq<NodeResult>)
    requires Completed(b, [], c, c', v)
    ensures c' == c && v == []
  {
  }

  lemma {:induction false} CompletedAppend(b: Build, first: seq<Step>, then_: seq<Step>, c: Cache, mid: Cache,
                                           c': Cache,
                                           v: seq<NodeResult>, more: seq<NodeResult>)
    requires AllKnown(b, first) && AllKnown(b, then_)
    requires Completed(b, first, c, mid, v) && Completed(b, then_, mid, c', more)
    ensures AllKnown(b, first + then_) && Completed(b, first + then_, c, c', v + more)
    decreases |then_|
  {
    hide BatchRuns, Completed, Known;
    if then_ == [] {
      NothingCompleted(b, mid, c', more);
      assert first + then_ == first && v + more == v;
    } else {
      var m := |then_| - 1;
      var mid', front, last := CompletedLast(b, then_, mid, c', more);
      CompletedAppend(b, first, then_[..m], c, mid, mid', v, front);
      CompletedSnoc(b, first + then_[..m], then_[m], c, mid', c', v + front, last);
      SplitLast(first, then_);
      assert v + more == v + front + last;
    }
  }

  lemma InterruptedAppend(b: Build, first: seq<Step>, then_: seq<Step>, rest: seq<Step>, c: Cache, mid: Cache,
                          c': Cache,
                          v: seq<NodeResult>, e: ExecutionError)
    requires AllKnown(b, first) && AllKnown(b, then_) && AllKnown(b, first + then_ + rest)
    requires Completed(b, first, c, mid, v) && Interrupted(b, then_, mid, c', e)
    ensures Interrupted(b, first + then_ + rest, c, c', e)
  {
    hide BatchRuns, Completed;
    var k: nat, mid', more :| k < |then_| && Completed(b, then_[..k], mid, mid', more)
                              && BatchRuns(b, then_[k], mid', c', Failure(e));
    CompletedAppend(b, first, then_[..k], c, mid, mid', v, more);
    var all := first + then_ + rest;
    assert all[..|first| + k] == first + then_[..k] && all[|first| + k] == then_[k];
  }

  lemma {:induction false} CompletedNames(b: Build, steps: seq<Step>, c: Cache, c': Cache, v: seq<NodeResult>)
    requires Prepared(b) && AllKnown(b, steps) && Completed(b, steps, c, c', v)
    ensures Map(v, RecordName) == Flatten(BatchesOf(steps))
    ensures Known(b.index, Flatten(BatchesOf(steps))) && AllResolvable(b, Flatten(BatchesOf(steps)))
    decreases |steps|
  {
    hide BatchRuns;
    if steps != [] {
      var m := |steps| - 1;
      var mid, front, last := CompletedLast(b, steps, c, c', v);
      CompletedNames(b, steps[..m], c, mid, front);
      BatchNames(b, steps[m], mid, c', last);
      FlattenLast(steps);
      ResolvableAppend(b, Flatten(BatchesOf(steps[..m])), steps[m].names);
      assert Map(v, RecordName) == Map(front, RecordName) + Map(last, RecordName);
    }
  }

  lemma FlattenLast(steps: seq<Step>)
    requires steps != []
    ensures var m := |steps| - 1; Flatten(BatchesOf(steps)) == Flatten(BatchesOf(steps[..m])) + steps[m].names
  {
    var m := |steps| - 1;
    assert BatchesOf(steps) == BatchesOf(steps[..m]) + [steps[m].names];
    FlattenSplit(BatchesOf(steps[..m]), [steps[m].names]);
    assert Flatten([steps[m].names]) == steps[m].names;
  }

  lemma {:induction false} ScheduledAreKnown(index: NodeIndex, pending: seq<Handle>, completed: set<Handle>)
    requires Known(index, pending)
    ensures Known(index, Flatten(ScheduleWave(index, pending, completed).batches))
  {
    ScheduleConserves(index, pending, completed);
    var ran := Flatten(ScheduleWave(index, pending, completed).batches);
    forall n | n in ran ensures n in index {
      assert n in multiset(ran);
      assert n in multiset(pending);
    }
  }

  lemma ResolvableAppend(b: Build, first: seq<Handle>, then_: seq<Handle>)
    requires Known(b.index, first) && Known(b.index, then_)
    ensures Known(b.index, first + then_)
    ensures AllResolvable(b, first + then_) <==> AllResolvable(b, first) && AllResolvable(b, then_)
  {
    forall n | n in first || n in then_ ensures n in first + then_ {}
  }

  /** `all` is what ran so far followed by the schedule of what is left. */
  ghost predicate Continues(all: Schedule, done: seq<seq<Handle>>, rest: Schedule) {
    all == Schedule(done + rest.batches, rest.pending)
  }

  function WithMode(batches: seq<seq<Handle>>, parallel: bool): seq<Step> {
    seq(|batches|, i requires 0 <= i < |batches| => Step(batches[i], parallel))
  }

  lemma WithModeKnown(b: Build, batches: seq<seq<Handle>>, parallel: bool)
    requires Known(b.index, Flatten(batches))
    ensures AllKnown(b, WithMode(batches, parallel))
  {
    forall step | step in WithMode(batches, parallel) ensures Known(b.index, step.names) {
      var k :| 0 <= k < |batches| && step == Step(batches[k], parallel);
      FlattenAt(batches, k);
    }
  }

  lemma NextBatch(b: Build, all: Schedule, done: seq<seq<Handle>>, pending: seq<Handle>, completed: set<Handle>,
                  parallel: bool)
    requires Known(b.index, pending) && Continues(all, done, ScheduleWave(b.index, pending, completed))
    ensures var ready := ReadyNames(b.index, pending, completed);
            && (ready == [] ==> all == Schedule(done, pending))
            && (ready != [] ==>
                  && |Retain(pending, ready)| < |pending|
                  && Continues(all, done + [ready],
                               ScheduleWave(b.index, Retain(pending, ready), completed + Names(ready)))
                  && WithMode(done + [ready], parallel) == WithMode(done, parallel) + [Step(ready, parallel)]
                  && |done| < |all.batches| && WithMode(all.batches, parallel)[..|done|] == WithMode(done, parallel)
                  && WithMode(all.batches, parallel)[|done|] == Step(ready, parallel))
  {
    hide Ready, Names;
    var ready := ReadyNames(b.index, pending, completed);
    if ready == [] {
      assert done + [] == done;
    } else {
      RetainShrinks(pending, ready);
      var rest := ScheduleWave(b.index, Retain(pending, ready), completed + Names(ready));
      assert done + ([ready] + rest.batches) == (done + [ready]) + rest.batches;
    }
  }

  lemma BreaksOff(b: Build, steps: seq<Step>, k: nat, pending: seq<Handle>, c: Cache, mid: Cache, c': Cache,
                  v: seq<NodeResult>, e: ExecutionError)
    requires AllKnown(b, steps) && k < |steps| && Completed(b, steps[..k], c, mid, v)
    requires BatchRuns(b, steps[k], mid, c', Failure(e))
    ensures Executes(b, steps, pending, c, c', Failure(e))
  {
    hide Completed, BatchRuns;
  }

  lemma GetsStuck(b: Build, steps: seq<Step>, pending: seq<Handle>, c: Cache, c': Cache, v: seq<NodeResult>)
    requires AllKnown(b, steps) && pending != [] && Completed(b, steps, c, c', v)
    ensures Executes(b, steps, pending, c, c', Failure(MissingDependency(pending[0])))
  {
    hide Completed, BatchRuns;
  }

  lemma RunsThrough(b: Build, steps: seq<Step>, c: Cache, c': Cache, v: seq<NodeResult>)
    requires AllKnown(b, steps) && Completed(b, steps, c, c', v)
    ensures Executes(b, steps, [], c, c', Success(v))
  {
    hide Completed, BatchRuns;
  }

  /** The loop of one wave: run what is ready until nothing is pending, or give up. */
  method ExecuteWave(b: Build, wave: Wave, before: set<Handle>, root: CacheRoot)
    returns (r: Result<seq<NodeResult>, ExecutionError>)
    requires Prepared(b) && Known(b.index, wave.nodeNames)
    modifies root
    ensures var s := ScheduleWave(b.index, wave.nodeNames, before);
            var steps := WithMode(s.batches, Parallel(wave.discipline));
            AllKnown(b, steps) && Executes(b, steps, s.pending, old(root.files), root.files, r)
  {
    hide BatchRuns, Completed;
    var pending, completed, results := wave.nodeNames, before, [];
    var parallel := Parallel(wave.discipline);
    ghost var done: seq<seq<Handle>> := [];
    ghost var all := ScheduleWave(b.index, wave.nodeNames, before);
    ScheduledAreKnown(b.index, wave.nodeNames, before);
    WithModeKnown(b, all.batches, parallel);
    CompletedNone(b, root.files);
    assert [] + all.batches == all.batches && WithMode([], parallel) == [];
    hide ScheduleWave, WithMode, Flatten, Names, Ready, Prepared, Executes, AllKnown;
    while pending != []
      invariant Known(b.index, pending) && AllKnown(b, WithMode(done, parallel))
      invariant Continues(all, done, ScheduleWave(b.index, pending, completed))
      invariant Completed(b, WithMode(done, parallel), old(root.files), root.files, results)
      decreases |pending|
    {
      var ready := ReadyNames(b.index, pending, completed);
      NextBatch(b, all, done, pending, completed, parallel);
      if ready == [] {
        GetsStuck(b, WithMode(done, parallel), pending, old(root.files), root.files, results);
        return Failure(MissingDependency(pending[0]));
      }
      ghost var mid := root.files;
      var step := ExecuteBatch(b, ready, parallel, root);
      if step.Failure? {
        BreaksOff(b, WithMode(all.batches, parallel), |done|, all.pending, old(root.files), mid, root.files, results,
                  step.error);
        return Failure(step.error);
      }
      CompletedSnoc(b, WithMode(done, parallel), Step(ready, parallel), old(root.files), mid, root.files, results,
                    step.value);
      BatchNames(b, Step(ready, parallel), mid, root.files, step.value);
      var batchNames := Map(step.value, RecordName);
      pending := Retain(pending, batchNames);
      completed := completed + Names(batchNames);
      results := results + step.value;
      done := done + [ready];
    }
    NothingLeft(b.index, all, done, completed);
    RunsThrough(b, WithMode(done, parallel), old(root.files), root.files, results);
    return Success(results);
  }

  lemma CompletedNone(b: Build, c: Cache)
    ensures Completed(b, [], c, c, [])
  {
  }

  lemma NothingLeft(index: NodeIndex, all: Schedule, done: seq<seq<Handle>>, completed: set<Handle>)
    requires Continues(all, done, ScheduleWave(index, [], completed))
    ensures all == Schedule(done, [])
  {
    assert done + [] == done;
  }

  // ---------------------------------------------------------------------------
  // What the run reports

  datatype Contradiction =
    | Stated(reason: string) | ArtifactUnobserved(scope: string) | WarmupUnobserved(scope: string)
    | ProofUnobserved(proofId: string)

  datatype JitStatus = Bounded | Contradicted

  datatype JitObservation = JitObservation(
    surfaceName: string, status: JitStatus, observedArtifacts: seq<string>, observedProofs: seq<string>,
    contradictions: set<Contradiction>)

  datatype ClosureOutcome = FullCompileClosure | PartialCompileClosure | ClosureByAssumption

  /** Artifact records by storage key, node records in the order they ran. */
  datatype Report = Report(
    planIdentity: PlanIdentity, artifacts: map<StorageKey, ArtifactRecord>, nodes: seq<NodeRecord>,
    closure: ClosureOutcome, readiness: Readiness.Observation, observations: seq<JitObservation>,
    compileFree: bool, verifyStatus: Status)

  /** Obligations by the name of their warmup node; the last one with a name wins. */
  function WarmupIndex(obligations: seq<Obligation>): map<Handle, Obligation> {
    if obligations == [] then map[]
    else
      var last := obligations[|obligations| - 1];
      WarmupIndex(obligations[..|obligations| - 1])[Warmup(WarmupLabel(last)) := last]
  }

  function ObservationFor(e: JitEvidence, scopes: set<string>, warmups: set<string>,
                          proofs: set<string>): JitObservation {
    var contradictions :=
      (set reason | reason in e.contradictions :: Stated(reason))
      + (set scope | scope in e.requiredArtifacts && scope !in scopes :: ArtifactUnobserved(scope))
      + (set scope | scope in e.declaredWarmupScopes && scope !in warmups :: WarmupUnobserved(scope))
      + (set proof | proof in e.requiredWarmupProofs && proof !in proofs :: ProofUnobserved(proof));
    JitObservation(
      e.surfaceName, if contradictions == {} then Bounded else Contradicted,
      Filter(e.requiredArtifacts, (scope: string) => scope in scopes),
      Filter(e.requiredWarmupProofs, (proof: string) => proof in proofs), contradictions)
  }

  function ObservedJit(o: Outcome, scopes: set<string>, completed: set<Handle>): seq<JitObservation> {
    var index := WarmupIndex(o.plan.obligations);
    var warmups := set n | n in index && n in completed :: index[n].regionName;
    var proofs := set n | n in index && n in completed :: index[n].proof.proofId;
    Map(o.verification.evidence, (e: JitEvidence) => ObservationFor(e, scopes, warmups, proofs))
  }

  function GateIsFree(gates: seq<OperatorGate>, command: string): bool {
    if gates == [] then false
    else if gates[0].command == command then gates[0].compileFree
    else GateIsFree(gates[1..], command)
  }

  function ClosureOf(closed: bool, observations: seq<JitObservation>, compileFree: bool): ClosureOutcome {
    if exists x | x in observations :: x.status == Contradicted then PartialCompileClosure
    else if closed && compileFree then FullCompileClosure
    else if closed then PartialCompileClosure
    else ClosureByAssumption
  }

  /** A node's artifact, if it has one, is booked under its storage key. */
  function Booked(artifacts: map<StorageKey, ArtifactRecord>, r: NodeResult): map<StorageKey, ArtifactRecord> {
    match r.artifact
    case None => artifacts
    case Some(artifact) => artifacts[artifact.result.document.storageKey := artifact]
  }

  function ArtifactsOf(results: seq<NodeResult>): map<StorageKey, ArtifactRecord> {
    if results == [] then map[]
    else
      Booked(ArtifactsOf(results[..|results| - 1]), results[|results| - 1])
  }

  function ScopesOf(artifacts: map<StorageKey, ArtifactRecord>): set<string> {
    set k | k in artifacts :: artifacts[k].result.document.scope
  }

  function NodeRecords(results: seq<NodeResult>): seq<NodeRecord> {
    Map(results, (r: NodeResult) => r.record)
  }

  function ReportOf(o: Outcome, artifacts: map<StorageKey, ArtifactRecord>, nodes: seq<NodeRecord>,
                    completed: set<Handle>): Report {
    var observations := ObservedJit(o, ScopesOf(artifacts), completed);
    var compileFree := GateIsFree(o.verification.gates, "verify") && GateIsFree(o.verification.gates, "replay");
    Report(o.plan.identity, artifacts, nodes, ClosureOf(true, observations, compileFree),
           Readiness.ObservedReadiness(o.plan.graph.nodes, completed), observations, compileFree, o.verification.status)
  }

  function ReportFor(o: Outcome, results: seq<NodeResult>): Report {
    ReportOf(o, ArtifactsOf(results), NodeRecords(results), Names(Map(results, RecordName)))
  }

  // ---------------------------------------------------------------------------
  // The whole plan

  lemma TallyIs(results: seq<NodeResult>, artifacts: map<StorageKey, ArtifactRecord>, nodes: seq<NodeRecord>,
                completed: set<Handle>)
    requires Tallies(results, artifacts, nodes, completed)
    ensures completed == Names(Map(results, RecordName))
  {
  }

  lemma TallyNames(results: seq<NodeResult>, more: seq<NodeResult>, artifacts: map<StorageKey, ArtifactRecord>,
                   nodes: seq<NodeRecord>, completed: set<Handle>)
    requires Tallies(results, artifacts, nodes, completed)
    ensures Names(Map(results + more, RecordName)) == completed + Names(Map(more, RecordName))
  {
    assert Map(results + more, RecordName) == Map(results, RecordName) + Map(more, RecordName);
    NamesSplit(Map(results, RecordName), Map(more, RecordName));
  }

  lemma {:induction false} AllScheduledAreKnown(index: NodeIndex, waves: seq<Wave>, completed: set<Handle>)
    requires forall w :: w in waves ==> Known(index, w.nodeNames)
    ensures Known(index, Flatten(ScheduleAll(index, waves, completed).batches))
    decreases waves
  {
    if waves != [] {
      assert waves[0] in waves;
      var s := ScheduleWave(index, waves[0].nodeNames, completed);
      ScheduledAreKnown(index, waves[0].nodeNames, completed);
      if s.pending == [] {
        var completed' := completed + Names(Flatten(s.batches));
        AllScheduledAreKnown(index, waves[1..], completed');
        FlattenSplit(s.batches, ScheduleAll(index, waves[1..], completed').batches);
      }
    }
  }

  /** What the records of the nodes that ran so far amount to. */
  ghost predicate Tallies(results: seq<NodeResult>, artifacts: map<StorageKey, ArtifactRecord>,
                          nodes: seq<NodeRecord>, completed: set<Handle>) {
    artifacts == ArtifactsOf(results) && nodes == NodeRecords(results) && completed == Names(Map(results, RecordName))
  }

  lemma TallySnoc(results: seq<NodeResult>, artifacts: map<StorageKey, ArtifactRecord>,
                  nodes: seq<NodeRecord>, completed: set<Handle>, r: NodeResult)
    requires Tallies(results, artifacts, nodes, completed)
    ensures Tallies(results + [r], Booked(artifacts, r), nodes + [r.record], completed + {r.record.name})
  {
    assert (results + [r])[..|results|] == results;
    assert Map(results + [r], RecordName) == Map(results, RecordName) + [r.record.name];
  }

  /** Books the results of one wave. */
  method Book(ghost before: seq<NodeResult>, more: seq<NodeResult>, artifacts0: map<StorageKey, ArtifactRecord>,
              nodes0: seq<NodeRecord>, completed0: set<Handle>)
    returns (artifacts: map<StorageKey, ArtifactRecord>, nodes: seq<NodeRecord>, completed: set<Handle>)
    requires Tallies(before, artifacts0, nodes0, completed0)
    ensures Tallies(before + more, artifacts, nodes, completed)
  {
    artifacts, nodes, completed := artifacts0, nodes0, completed0;
    assert before + more[..0] == before;
    for i := 0 to |more|
      invariant Tallies(before + more[..i], artifacts, nodes, completed)
    {
      assert before + more[..i + 1] == (before + more[..i]) + [more[i]];
      TallySnoc(before + more[..i], artifacts, nodes, completed, more[i]);
      if more[i].artifact.Some? {
        artifacts := artifacts[more[i].artifact.value.result.document.storageKey := more[i].artifact.value];
      }
      completed := completed + {more[i].record.name};
      nodes := nodes + [more[i].record];
    }
    assert before + more[..|more|] == before + more;
  }

  /** The batches of all waves, each with the mode of its wave. */
  function StepsOf(index: NodeIndex, waves: seq<Wave>, completed: set<Handle>): seq<Step>
    requires forall w :: w in waves ==> Known(index, w.nodeNames)
  {
    if waves == [] then []
    else
      var s := ScheduleWave(index, waves[0].nodeNames, completed);
      var first := WithMode(s.batches, Parallel(waves[0].discipline));
      if s.pending != [] then first
      else first + StepsOf(index, waves[1..], completed + Names(Flatten(s.batches)))
  }

  lemma {:induction false} StepsAreScheduled(index: NodeIndex, waves: seq<Wave>, completed: set<Handle>)
    requires forall w :: w in waves ==> Known(index, w.nodeNames)
    ensures BatchesOf(StepsOf(index, waves, completed)) == ScheduleAll(index, waves, completed).batches
    decreases waves
  {
    hide ScheduleWave, Names, Flatten;
    if waves != [] {
      var s := ScheduleWave(index, waves[0].nodeNames, completed);
      if s.pending == [] {
        StepsAreScheduled(index, waves[1..], completed + Names(Flatten(s.batches)));
      }
    }
  }

  lemma StepsKnown(b: Build, waves: seq<Wave>, completed: set<Handle>)
    requires forall w :: w in waves ==> Known(b.index, w.nodeNames)
    ensures AllKnown(b, StepsOf(b.index, waves, completed))
    decreases waves
  {
    if waves != [] {
      assert waves[0] in waves;
      var s := ScheduleWave(b.index, waves[0].nodeNames, completed);
      ScheduledAreKnown(b.index, waves[0].nodeNames, completed);
      WithModeKnown(b, s.batches, Parallel(waves[0].discipline));
      if s.pending == [] {
        StepsKnown(b, waves[1..], completed + Names(Flatten(s.batches)));
      }
    }
  }

  /** `steps` and `pending` are what ran so far followed by what the remaining waves give. */
  ghost predicate WavesLeft(index: NodeIndex, steps: seq<Step>, pending: seq<Handle>, done: seq<Step>, waves: seq<Wave>,
                            completed: set<Handle>)
    requires forall w :: w in waves ==> Known(index, w.nodeNames)
  {
    && steps == done + StepsOf(index, waves, completed)
    && pending == ScheduleAll(index, waves, completed).pending
  }

  lemma NoWavesLeft(index: NodeIndex, steps: seq<Step>, pending: seq<Handle>, done: seq<Step>, completed: set<Handle>)
    requires WavesLeft(index, steps, pending, done, [], completed)
    ensures steps == done && pending == []
  {
    assert done + [] == done;
  }

  lemma NextWave(index: NodeIndex, steps: seq<Step>, pending: seq<Handle>, done: seq<Step>, waves: seq<Wave>,
                 completed: set<Handle>) returns (rest: seq<Step>)
    requires waves != [] && forall w :: w in waves ==> Known(index, w.nodeNames)
    requires WavesLeft(index, steps, pending, done, waves, completed)
    ensures var s := ScheduleWave(index, waves[0].nodeNames, completed);
            var more := WithMode(s.batches, Parallel(waves[0].discipline));
            && steps == done + more + rest && BatchesOf(more) == s.batches
            && (s.pending != [] ==> rest == [] && pending == s.pending)
            && (s.pending == [] ==>
                  WavesLeft(index, steps, pending, done + more, waves[1..], completed + Names(Flatten(s.batches))))
  {
    hide ScheduleWave, Flatten, Names;
    var s := ScheduleWave(index, waves[0].nodeNames, completed);
    var more := WithMode(s.batches, Parallel(waves[0].discipline));
    rest := if s.pending != [] then [] else StepsOf(index, waves[1..], completed + Names(Flatten(s.batches)));
    assert done + (more + rest) == done + more + rest;
  }

  function Reported(o: Outcome, r: Result<seq<NodeResult>, ExecutionError>): Result<Report, ExecutionError> {
    if r.Success? then Success(ReportFor(o, r.value)) else Failure(r.error)
  }

  /** Some execution of the outcome's batches turns `c` into `c'` and reports `r`. */
  ghost predicate ExecutesTo(o: Outcome, clock: Handle -> nat, c: Cache, c': Cache, r: Result<Report, ExecutionError>)
    requires Closed(o) && forall w :: w in o.plan.graph.waves ==> Known(BuildOf(o, clock).index, w.nodeNames)
  {
    var b := BuildOf(o, clock);
    var steps := StepsOf(b.index, o.plan.graph.waves, {});
    && AllKnown(b, steps)
    && exists v :: Executes(b, steps, ScheduleAll(b.index, o.plan.graph.waves, {}).pending, c, c', v)
                   && r == Reported(o, v)
  }

  lemma BrokenOff(b: Build, steps: seq<Step>, pending: seq<Handle>, done: seq<Step>, more: seq<Step>, rest: seq<Step>,
                  left: seq<Handle>, c: Cache, mid: Cache, c': Cache, so: seq<NodeResult>,
                  r: Result<seq<NodeResult>, ExecutionError>)
    requires AllKnown(b, steps) && AllKnown(b, done) && AllKnown(b, more) && steps == done + more + rest
    requires left != [] ==> rest == [] && pending == left
    requires Completed(b, done, c, mid, so) && Executes(b, more, left, mid, c', r) && r.Failure?
    ensures Executes(b, steps, pending, c, c', r)
  {
    hide Completed, BatchRuns;
    if Interrupted(b, more, mid, c', r.error) {
      InterruptedAppend(b, done, more, rest, c, mid, c', so, r.error);
    } else {
      var v :| Completed(b, more, mid, c', v);
      CompletedAppend(b, done, more, c, mid, c', so, v);
      assert done + more + [] == done + more;
    }
  }

  /** Runs every wave in turn and reports. */
  method Execute(o: Outcome, clock: Handle -> nat, root: CacheRoot) returns (r: Result<Report, ExecutionError>)
    requires Closed(o) && Prepared(BuildOf(o, clock))
    requires forall w :: w in o.plan.graph.waves ==> Known(BuildOf(o, clock).index, w.nodeNames)
    modifies root
    ensures ExecutesTo(o, clock, old(root.files), root.files, r)
  {
    hide Completed, BatchRuns, BuildOf, ReportOf, StepsOf, ScheduleAll, Prepared;
    var b := BuildOf(o, clock);
    var waves := o.plan.graph.waves;
    ghost var steps, pending := StepsOf(b.index, waves, {}), ScheduleAll(b.index, waves, {}).pending;
    StepsKnown(b, waves, {});
    CompletedNone(b, root.files);
    var completed: set<Handle>, artifacts: map<StorageKey, ArtifactRecord>, nodes: seq<NodeRecord> := {}, map[], [];
    ghost var done: seq<Step>, so: seq<NodeResult> := [], [];
    assert waves[0..] == waves && [] + steps == steps;
    for i := 0 to |waves|
      invariant AllKnown(b, done) && Completed(b, done, old(root.files), root.files, so)
      invariant WavesLeft(b.index, steps, pending, done, waves[i..], completed)
      invariant Tallies(so, artifacts, nodes, completed)
    {
      hide Tallies, WavesLeft;
      assert waves[i..][1..] == waves[i + 1..];
      ghost var rest := NextWave(b.index, steps, pending, done, waves[i..], completed);
      ghost var s := ScheduleWave(b.index, waves[i].nodeNames, completed);
      ghost var more := WithMode(s.batches, Parallel(waves[i].discipline));
      ghost var mid := root.files;
      var results := ExecuteWave(b, waves[i], completed, root);
      if results.Failure? {
        BrokenOff(b, steps, pending, done, more, rest, s.pending, old(root.files), mid, root.files, so, results);
        return Failure(results.error);
      }
      CompletedAppend(b, done, more, old(root.files), mid, root.files, so, results.value);
      CompletedNames(b, more, mid, root.files, results.value);
      TallyNames(so, results.value, artifacts, nodes, completed);
      artifacts, nodes, completed := Book(so, results.value, artifacts, nodes, completed);
      TallyIs(so + results.value, artifacts, nodes, completed);
      so := so + results.value;
      done := done + more;
    }
    NoWavesLeft(b.index, steps, pending, done, completed);
    assert Executes(b, steps, pending, old(root.files), root.files, Success(so));
    return Success(ReportOf(o, artifacts, nodes, completed));
  }
}
