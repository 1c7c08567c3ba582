/** Exactly when executing an accepted plan can fail, read off its requirements and the cache. */
module PlannedRaces {
  import opened Ordering
  import opened Types
  import opened Resolution
  import opened ArtifactCache
  import opened CacheRace
  import opened Scheduler
  import opened Execution
  import opened ExecutionRaces
  import opened PlannedOutcome
  import opened PlannedCache
  import opened PlannedExecution
  import Lowering

  /** Every node of a wave may run beside the others. */
  ghost predicate ParallelWave(nodes: seq<Node>, k: Lowering.WaveKey) {
    forall n :: n in nodes && Lowering.KeyOf(n) == k ==> n.discipline == ParallelPerRank
  }

  /** Two artifacts of one parallel wave lie in one directory. */
  ghost predicate Neighbours(o: Outcome, q: Requirement, q': Requirement)
    requires Closed(o)
  {
    && q in o.plan.requirements && q' in o.plan.requirements && q != q'
    && Lowering.KeyOf(Lowering.ArtifactNode(q)) == Lowering.KeyOf(Lowering.ArtifactNode(q'))
    && ParallelWave(o.plan.graph.nodes, Lowering.KeyOf(Lowering.ArtifactNode(q)))
    && Slug(DocumentFor(o, q).cacheNamespace) == Slug(DocumentFor(o, q').cacheNamespace)
  }

  /** And the cache holds an outdated document of the first. */
  ghost predicate StaleNeighbour(o: Outcome, c: Cache, q: Requirement, q': Requirement)
    requires Closed(o)
  {
    Neighbours(o, q, q') && exists p :: p in c && Sibling(p, c[p], DocumentFor(o, q))
  }

  // ---------------------------------------------------------------------------
  // Such neighbours race

  /** Two nodes of one wave that depend on nothing run in one batch. */
  lemma {:induction false} FreeNodesShareBatch(index: NodeIndex, waves: seq<Wave>, completed: set<Handle>, a: nat,
                                               n: Handle,
                                               n': Handle) returns (step: Step)
    requires forall w :: w in waves ==> Known(index, w.nodeNames)
    requires a < |waves| && n in waves[a].nodeNames && n' in waves[a].nodeNames && n in index && n' in index
    requires index[n].dependencies == [] && index[n'].dependencies == []
    requires ScheduleAll(index, waves, completed).pending == []
    ensures step in StepsOf(index, waves, completed) && step.parallel == Parallel(waves[a].discipline)
    ensures n in step.names && n' in step.names
    decreases waves
  {
    assert waves[0] in waves;
    var s := ScheduleWave(index, waves[0].nodeNames, completed);
    if a == 0 {
      var ready := ReadyNames(index, waves[0].nodeNames, completed);
      assert Ready(index, n, completed) && Ready(index, n', completed);
      assert n in ready && n' in ready;
      step := Step(ready, Parallel(waves[0].discipline));
      assert s.batches[0] == ready;
      assert WithMode(s.batches, step.parallel)[0] == step;
    } else {
      step := FreeNodesShareBatch(index, waves[1..], completed + Names(Flatten(s.batches)), a - 1, n, n');
    }
  }

  lemma {:induction false} JobIsAsked(b: Build, names: seq<Handle>, n: Handle)
    requires n in names && n in b.index && Materializes(b.index[n].kind) && b.job(n).Some?
    ensures b.job(n).value in JobsOf(b, names)
  {
    var m := |names| - 1;
    if names[m] != n {
      assert n in names[..m];
      JobIsAsked(b, names[..m], n);
    }
  }

  lemma ArtifactNodeIs(o: Outcome, q: Requirement)
    requires WellPlanned(o) && q in o.plan.requirements
    ensures Lowering.ArtifactNode(q) in o.plan.graph.nodes
    ensures Artifact(q) in IndexOf(o.plan.graph.nodes)
    ensures IndexOf(o.plan.graph.nodes)[Artifact(q)] == Lowering.ArtifactNode(q)
  {
    Lowering.NodesAre(o.plan.request.topology, o.plan.requirements, o.plan.obligations, Lowering.ArtifactNode(q));
    NamedIsIndexed(o.plan.graph.nodes, Lowering.ArtifactNode(q));
  }

  lemma {:induction false} NamedIsIndexed(nodes: seq<Node>, n: Node)
    requires n in nodes && UniqueNames(nodes)
    ensures n.name in IndexOf(nodes) && IndexOf(nodes)[n.name] == n
  {
    var m := |nodes| - 1;
    assert nodes == nodes[..m] + [nodes[m]];
    if nodes[m] != n {
      assert n in nodes[..m];
      NamedIsIndexed(nodes[..m], n);
    }
  }

  lemma WaveOf(nodes: seq<Node>, n: Node) returns (a: nat)
    requires n in nodes
    ensures a < |Lowering.WavesOf(nodes)| && a < |Lowering.SortedKeys(nodes)|
    ensures Lowering.SortedKeys(nodes)[a] == Lowering.KeyOf(n)
  {
    Lowering.SortedKeysChain(nodes);
    var i :| 0 <= i < |nodes| && nodes[i] == n;
    assert Lowering.Keys(nodes)[i] == Lowering.KeyOf(n);
    assert Lowering.KeyOf(n) in Elements(Lowering.SortedKeys(nodes));
    a :| 0 <= a < |Lowering.SortedKeys(nodes)| && Lowering.SortedKeys(nodes)[a] == Lowering.KeyOf(n);
  }

  lemma ParallelMembers(nodes: seq<Node>, k: Lowering.WaveKey)
    ensures Lowering.WaveDiscipline(Lowering.MembersOf(nodes, k)) == ParallelPerRank <==> ParallelWave(nodes, k)
  {
    var members := Lowering.MembersOf(nodes, k);
    forall n ensures n in members <==> n in nodes && Lowering.KeyOf(n) == k {
      Lowering.MembersAre(nodes, k, n);
    }
    if ParallelWave(nodes, k) {
      assert forall n :: n in members ==> n.discipline == ParallelPerRank;
    }
  }

  lemma NeighboursShareBatch(run: Run, q: Requirement, q': Requirement) returns (step: Step)
    requires WellPlanned(run.outcome) && q in run.outcome.plan.requirements && q' in run.outcome.plan.requirements
    requires Lowering.KeyOf(Lowering.ArtifactNode(q)) == Lowering.KeyOf(Lowering.ArtifactNode(q'))
    requires ParallelWave(run.outcome.plan.graph.nodes, Lowering.KeyOf(Lowering.ArtifactNode(q)))
    ensures step in StepsOn(run) && step.parallel && Artifact(q) in step.names && Artifact(q') in step.names
  {
    var (o, k) := (run.outcome, Lowering.KeyOf(Lowering.ArtifactNode(q)));
    var (nodes, waves) := (o.plan.graph.nodes, o.plan.graph.waves);
    assert waves == Lowering.WavesOf(nodes);
    hide WellPlanned, StepsOf, ParallelWave, ScheduleAll;
    AcceptedPlanExecutes(o, run.clock);
    ArtifactNodeIs(o, q);
    ArtifactNodeIs(o, q');
    var a := WaveOf(nodes, Lowering.ArtifactNode(q));
    Lowering.WaveNamesAre(nodes, k, Artifact(q));
    Lowering.WaveNamesAre(nodes, k, Artifact(q'));
    ParallelMembers(nodes, k);
    step := FreeNodesShareBatch(BuildOn(run).index, waves, {}, a, Artifact(q), Artifact(q'));
  }

  lemma JobAt(run: Run, names: seq<Handle>, q: Requirement) returns (k: nat)
    requires WellPlanned(run.outcome) && Closed(run.outcome) && q in run.outcome.plan.requirements
    requires Artifact(q) in names
    ensures var jobs := JobsOf(BuildOn(run), names); k < |jobs| && jobs[k].document == DocumentFor(run.outcome, q)
  {
    hide WellPlanned, DocumentFor;
    var (b, n) := (BuildOn(run), Artifact(q));
    ArtifactNodeIs(run.outcome, q);
    assert b.job(n) == Some(Job(DocumentFor(run.outcome, q), run.clock(n)));
    JobIsAsked(b, names, n);
    k :| 0 <= k < |JobsOf(b, names)| && JobsOf(b, names)[k] == b.job(n).value;
  }

  lemma RaceAt(c: Cache, jobs: seq<Job>, i: nat, k: nat, p: CachePath)
    requires i < |jobs| && k < |jobs| && i != k && p in c && Sibling(p, c[p], jobs[k].document)
    requires Slug(jobs[i].document.cacheNamespace) == Slug(jobs[k].document.cacheNamespace)
    ensures Races(c, jobs)
  {
    hide Slug, Sibling;
    assert ToEvict(c, jobs[k], p) && DirectoryOf(jobs[i]) == DirectoryOf(jobs[k]);
  }

  lemma NeighbourRaces(run: Run, c: Cache, q: Requirement, q': Requirement)
    requires WellPlanned(run.outcome) && Closed(run.outcome) && StaleNeighbour(run.outcome, c, q, q')
    ensures MayFail(run, c)
  {
    hide WellPlanned, DocumentFor, StepsOn, BuildOn, ParallelWave, Races, Slug, Sibling;
    var o := run.outcome;
    var step := NeighboursShareBatch(run, q, q');
    var jobs := JobsOf(BuildOn(run), step.names);
    var k := JobAt(run, step.names, q);
    var i := JobAt(run, step.names, q');
    if i == k {
      TripleTellsApart(o, q, q');
      assert false;
    }
    var p :| p in c && Sibling(p, c[p], DocumentFor(o, q));
    RaceAt(c, jobs, i, k, p);
    assert RacesIn(BuildOn(run), step, c);
  }

  // ---------------------------------------------------------------------------
  // And nothing else does

  lemma NamedInWave(o: Outcome, w: Wave, q: Requirement)
    requires WellPlanned(o) && q in o.plan.requirements && w in o.plan.graph.waves && Artifact(q) in w.nodeNames
    ensures w.discipline == ParallelPerRank ==>
              ParallelWave(o.plan.graph.nodes, Lowering.KeyOf(Lowering.ArtifactNode(q)))
    ensures (w.number, w.queue) == Lowering.KeyOf(Lowering.ArtifactNode(q))
  {
    var (nodes, ks) := (o.plan.graph.nodes, Lowering.SortedKeys(o.plan.graph.nodes));
    var a :| 0 <= a < |o.plan.graph.waves| && o.plan.graph.waves[a] == w;
    var members := Lowering.MembersOf(nodes, ks[a]);
    assert w == Lowering.WaveFor(ks[a], members);
    var i :| 0 <= i < |members| && members[i].name == Artifact(q);
    Lowering.MembersAre(nodes, ks[a], members[i]);
    ArtifactNodeIs(o, q);
    NamedIsIndexed(nodes, members[i]);
    ParallelMembers(nodes, ks[a]);
  }

  lemma SameStepSameWave(run: Run, step: Step, q: Requirement, q': Requirement)
    requires WellPlanned(run.outcome) && step in StepsOn(run) && step.parallel
    requires q in run.outcome.plan.requirements && q' in run.outcome.plan.requirements
    requires Artifact(q) in step.names && Artifact(q') in step.names
    ensures Lowering.KeyOf(Lowering.ArtifactNode(q)) == Lowering.KeyOf(Lowering.ArtifactNode(q'))
    ensures ParallelWave(run.outcome.plan.graph.nodes, Lowering.KeyOf(Lowering.ArtifactNode(q)))
  {
    hide WellPlanned, StepsOf, ParallelWave;
    var o := run.outcome;
    AcceptedPlanExecutes(o, run.clock);
    StepHasWave(BuildOn(run).index, o.plan.graph.waves, {}, step);
    var w :| w in o.plan.graph.waves && step.parallel == Parallel(w.discipline)
             && forall x :: x in step.names ==> x in w.nodeNames;
    NamedInWave(o, w, q);
    NamedInWave(o, w, q');
  }

  lemma RequirementOf(run: Run, names: seq<Handle>, j: Job) returns (q: Requirement)
    requires WellPlanned(run.outcome) && Closed(run.outcome) && j in JobsOf(BuildOn(run), names)
    ensures q in run.outcome.plan.requirements && Artifact(q) in names && j.document == DocumentFor(run.outcome, q)
  {
    hide WellPlanned, DocumentFor, BuildOf;
    JobsComeFromNames(run.outcome, run.clock, names, j);
    var n :| n in names && JobOf(run.outcome, j, n);
    q := n.requirement;
  }

  lemma JobsAreNeighbours(run: Run, step: Step, i: nat, k: nat) returns (q: Requirement, q': Requirement)
    requires WellPlanned(run.outcome) && Closed(run.outcome) && step in StepsOn(run) && step.parallel && i != k
    requires var jobs := JobsOf(BuildOn(run), step.names);
             i < |jobs| && k < |jobs| && DirectoryOf(jobs[i]) == DirectoryOf(jobs[k])
    ensures Neighbours(run.outcome, q, q')
    ensures JobsOf(BuildOn(run), step.names)[k].document == DocumentFor(run.outcome, q)
  {
    hide WellPlanned, StepsOn, BuildOn, ParallelWave, DocumentFor, Slug, Lowering.KeyOf;
    var jobs := JobsOf(BuildOn(run), step.names);
    q := RequirementOf(run, step.names, jobs[k]);
    q' := RequirementOf(run, step.names, jobs[i]);
    SameStepSameWave(run, step, q, q');
    BatchTriplesDiffer(run, step, i, k);
  }

  lemma RaceIsNeighbour(run: Run, c: Cache) returns (q: Requirement, q': Requirement)
    requires WellPlanned(run.outcome) && Closed(run.outcome) && MayFail(run, c)
    ensures StaleNeighbour(run.outcome, c, q, q')
  {
    hide WellPlanned, StepsOn, BuildOn, Neighbours, DocumentFor, DirectoryOf, Sibling;
    var step :| step in StepsOn(run) && RacesIn(BuildOn(run), step, c);
    var jobs := JobsOf(BuildOn(run), step.names);
    var i, k, p :| 0 <= i < |jobs| && 0 <= k < |jobs| && k != i
                   && DirectoryOf(jobs[i]) == DirectoryOf(jobs[k]) && ToEvict(c, jobs[k], p);
    q, q' := JobsAreNeighbours(run, step, i, k);
  }

  lemma BatchTriplesDiffer(run: Run, step: Step, i: nat, k: nat)
    requires WellPlanned(run.outcome) && step in StepsOn(run) && i != k
    requires i < |JobsOf(BuildOn(run), step.names)| && k < |JobsOf(BuildOn(run), step.names)|
    ensures var jobs := JobsOf(BuildOn(run), step.names); jobs[i].document != jobs[k].document
  {
    hide WellPlanned, BuildOf, StepsOf;
    StepsAreSound(run);
    assert Sound(Filing(run.outcome.survey), BuildOn(run), step);
    var jobs := JobsOf(BuildOn(run), step.names);
    assert DocumentTriple(jobs[if i < k then i else k]) != DocumentTriple(jobs[if i < k then k else i]);
  }

  ghost predicate HasStaleNeighbour(o: Outcome, c: Cache)
    requires Closed(o)
  {
    exists q, q' :: StaleNeighbour(o, c, q, q')
  }

  /** An accepted plan has an execution that fails exactly when, before it starts, the cache
      holds an outdated document of an artifact that some other artifact of its wave shares a
      directory with, and that wave is a parallel one. */
  lemma FailsExactly(run: Run, c: Cache)
    requires WellPlanned(run.outcome) && Closed(run.outcome) && Filed(Filing(run.outcome.survey), c)
    ensures (exists c', r :: CanExecute(run, c, c', r) && r.Failure?) <==> HasStaleNeighbour(run.outcome, c)
  {
    hide WellPlanned, CanExecute, MayFail, StaleNeighbour, Filed, ReportOn, RunJobs;
    AcceptedExecutesExactly(run, c);
    if MayFail(run, c) {
      var q, q' := RaceIsNeighbour(run, c);
    }
    if HasStaleNeighbour(run.outcome, c) {
      var q, q' :| StaleNeighbour(run.outcome, c, q, q');
      NeighbourRaces(run, c, q, q');
    }
  }
}
