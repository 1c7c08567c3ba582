/** What the replay proof of an executed accepted plan says, whatever was cached before and
    however its parallel batches interleaved. */
module PlannedReplay {
  import opened Collections
  import opened Types
  import opened Scope
  import opened Planner
  import opened PlannerFacts
  import opened PlannerValidation
  import opened Plan
  import opened Resolution
  import opened ArtifactCache
  import opened CacheRace
  import opened Scheduler
  import opened PlannedRun
  import opened Execution
  import opened PlannedOutcome
  import opened PlannedCache
  import opened ExecutionRaces
  import opened PlannedExecution
  import opened Replay
  import Lowering

  /** Some execution of the plan, on some cache and in some interleaving, succeeds with this
      report. */
  ghost predicate Reports(run: Run, report: Report)
    requires WellPlanned(run.outcome)
  {
    exists c, c' :: CanExecute(run, c, c', Success(report))
  }

  /** These results answer the nodes of the plan in the order they run. */
  ghost predicate AnsweredOn(run: Run, v: seq<NodeResult>)
    requires WellPlanned(run.outcome)
  {
    AcceptedPlanExecutes(run.outcome, run.clock);
    Answered(BuildOf(run.outcome, run.clock), RunNames(run.outcome), v)
  }

  lemma ReportIsAnswered(run: Run, report: Report) returns (v: seq<NodeResult>)
    requires WellPlanned(run.outcome) && Reports(run, report)
    ensures AnsweredOn(run, v) && report == ReportFor(run.outcome, v)
  {
    hide WellPlanned, ReportFor, BuildOf, StepsOf, Completed, CanExecute, Answered;
    StepsAreSound(run);
    var c, c' :| CanExecute(run, c, c', Success(report));
    ExecutesAre(run, c, c', Success(report));
    var r :| Executes(BuildOn(run), StepsOn(run), [], c, c', r) && Success(report) == Reported(run.outcome, r);
    v := r.value;
    CompletedAnswers(BuildOn(run), StepsOn(run), c, c', v);
  }

  // ---------------------------------------------------------------------------
  // Artifact records

  /** The document each requirement asks for. */
  ghost function Wanted(o: Outcome): map<Requirement, Document>
    requires Closed(o)
  {
    map q | q in o.plan.requirements :: DocumentFor(o, q)
  }

  lemma WantedIs(o: Outcome, q: Requirement)
    requires WellPlanned(o) && Closed(o) && q in o.plan.requirements
    ensures q in Wanted(o)
    ensures var d := Wanted(o)[q];
            && d.storageKey == KeyFor(o.plan, q) && d.scope == q.scope && d.rankDisposition == q.rankDisposition
            && d.manifestIdentity == ManifestIdentity(o.plan.selection.primary.family, q.artifactClass, q.scope)
  {
    EntryIsFound(o.plan.selection.primary.family, o.plan.requirements, q);
  }

  ghost predicate Produces(d: Document, a: ArtifactRecord) { Untimed(a.result.document) == d && a.rankCount == 1 }

  ghost predicate Recorded(want: map<Requirement, Document>, artifacts: map<StorageKey, ArtifactRecord>, q: Requirement)
    requires q in want
  {
    want[q].storageKey in artifacts && Produces(want[q], artifacts[want[q].storageKey])
  }

  predicate Wants(want: map<Requirement, Document>, n: Handle) { n.Artifact? && n.requirement in want }

  ghost function KeysOf(want: map<Requirement, Document>): set<StorageKey> { set q | q in want :: want[q].storageKey }

  /** The artifact records are those of the named requirements: one per key, each with the
      document that is wanted. */
  ghost predicate Records(want: map<Requirement, Document>, artifacts: map<StorageKey, ArtifactRecord>,
                          names: seq<Handle>) {
    && (forall n :: n in names && Wants(want, n) ==> Recorded(want, artifacts, n.requirement))
    && artifacts.Keys <= KeysOf(want)
  }

  /** Storage keys tell requirements apart. */
  ghost predicate KeysTell(want: map<Requirement, Document>) {
    forall q, q' | q in want && q' in want && want[q].storageKey == want[q'].storageKey :: q == q'
  }

  lemma RecordStep(want: map<Requirement, Document>, artifacts: map<StorageKey, ArtifactRecord>,
                   front: seq<Handle>, last: Handle, r: NodeResult)
    requires KeysTell(want) && Records(want, artifacts, front)
    requires r.artifact.Some? <==> Wants(want, last)
    requires r.artifact.Some? ==> Produces(want[last.requirement], r.artifact.value)
    ensures Records(want, Booked(artifacts, r), front + [last])
  {
    if Wants(want, last) {
      var d := r.artifact.value.result.document;
      assert d.storageKey == Untimed(d).storageKey;
    }
  }

  lemma ArtifactsSnoc(results: seq<NodeResult>, r: NodeResult)
    ensures ArtifactsOf(results + [r]) == Booked(ArtifactsOf(results), r)
  {
    assert (results + [r])[..|results|] == results;
  }

  lemma ArtifactNodeAt(o: Outcome, n: Handle)
    requires WellPlanned(o) && n in IndexOf(o.plan.graph.nodes)
    ensures IsRequired(o, n) <==> Materializes(IndexOf(o.plan.graph.nodes)[n].kind)
    ensures IsRequired(o, n) ==> |IndexOf(o.plan.graph.nodes)[n].rankScope| == 1
  {
    IndexIsNode(o.plan.graph.nodes, n);
    Lowering.NodesAre(o.plan.request.topology, o.plan.requirements, o.plan.obligations, IndexOf(o.plan.graph.nodes)[n]);
  }

  lemma JobIsProduced(b: Build, n: Handle, r: NodeResult)
    requires n in b.index && (b.job(n).Some? <==> Materializes(b.index[n].kind)) && Answers(b, n, r)
    requires b.job(n).Some? ==> b.job(n).value.document.times == Times(0, 0, 0) && |b.index[n].rankScope| == 1
    ensures r.artifact.Some? == b.job(n).Some?
    ensures r.artifact.Some? ==> Produces(b.job(n).value.document, r.artifact.value)
  {
    var came :| Yields(b, n, came) && r == Answer(b, n, came);
  }

  lemma JobIsWanted(o: Outcome, clock: Handle -> nat, n: Handle)
    requires Closed(o)
    ensures var (job, want) := (BuildOf(o, clock).job(n), Wanted(o));
            && (job.Some? <==> Wants(want, n)) && (job.Some? <==> IsRequired(o, n))
            && (job.Some? ==> job.value.document == want[n.requirement] && job.value.document.times == Times(0, 0, 0))
  {
    var job := BuildOf(o, clock).job(n);
    assert job == if IsRequired(o, n) then Some(Job(DocumentFor(o, n.requirement), clock(n))) else None;
    assert Wants(Wanted(o), n) <==> IsRequired(o, n);
  }

  lemma ResultIsProduced(o: Outcome, clock: Handle -> nat, n: Handle, r: NodeResult)
    requires WellPlanned(o) && Closed(o) && n in IndexOf(o.plan.graph.nodes) && Answers(BuildOf(o, clock), n, r)
    ensures r.artifact.Some? <==> Wants(Wanted(o), n)
    ensures r.artifact.Some? ==> Produces(Wanted(o)[n.requirement], r.artifact.value)
  {
    ArtifactNodeAt(o, n);
    JobIsWanted(o, clock, n);
    JobIsProduced(BuildOf(o, clock), n, r);
  }

  lemma {:induction false} RecordsOfNames(o: Outcome, clock: Handle -> nat, names: seq<Handle>, v: seq<NodeResult>)
    requires WellPlanned(o) && Closed(o) && KeysTell(Wanted(o)) && Known(IndexOf(o.plan.graph.nodes), names)
    requires Answered(BuildOf(o, clock), names, v)
    ensures Records(Wanted(o), ArtifactsOf(v), names)
  {
    hide WellPlanned, BuildOf, Answers, Closed, KeysTell;
    if names != [] {
      var (b, m) := (BuildOf(o, clock), |names| - 1);
      var (front, last) := (names[..m], names[m]);
      assert names == front + [last] && v == v[..m] + [v[m]];
      RecordsOfNames(o, clock, front, v[..m]);
      ResultIsProduced(o, clock, last, v[m]);
      RecordStep(Wanted(o), ArtifactsOf(v[..m]), front, last, v[m]);
      ArtifactsSnoc(v[..m], v[m]);
    }
  }

  /** Two artifacts of one plan never share a storage key. */
  lemma KeyTellsApart(o: Outcome, q: Requirement, q': Requirement)
    requires WellPlanned(o) && Closed(o) && q in o.plan.requirements && q' in o.plan.requirements
    requires KeyFor(o.plan, q) == KeyFor(o.plan, q')
    ensures q == q'
  {
    DocumentIsFiled(o, q);
    DocumentIsFiled(o, q');
    TripleTellsApart(o, q, q');
  }

  lemma WellPlannedKeysTell(o: Outcome)
    requires WellPlanned(o) && Closed(o)
    ensures KeysTell(Wanted(o))
  {
    var want := Wanted(o);
    forall q, q' | q in want && q' in want && want[q].storageKey == want[q'].storageKey ensures q == q' {
      KeyTellsApart(o, q, q');
    }
  }

  /** Every wanted document is recorded, once, and nothing else. */
  ghost predicate Complete(want: map<Requirement, Document>, artifacts: map<StorageKey, ArtifactRecord>) {
    (forall q :: q in want ==> Recorded(want, artifacts, q)) && artifacts.Keys == KeysOf(want)
  }

  lemma RecordsComplete(want: map<Requirement, Document>, artifacts: map<StorageKey, ArtifactRecord>,
                        names: seq<Handle>)
    requires Records(want, artifacts, names) && forall q :: q in want ==> Artifact(q) in names
    ensures Complete(want, artifacts)
  {
    forall q | q in want ensures Recorded(want, artifacts, q) {
      assert Wants(want, Artifact(q));
    }
  }

  /** The report of an executed accepted plan has one record per requirement, with the
      document the plan asks for. */
  lemma ReportRecords(run: Run, v: seq<NodeResult>)
    requires WellPlanned(run.outcome) && Closed(run.outcome) && AnsweredOn(run, v)
    ensures Complete(Wanted(run.outcome), ArtifactsOf(v))
  {
    hide WellPlanned, Answered, Records;
    var o := run.outcome;
    AcceptedPlanExecutes(o, run.clock);
    WellPlannedKeysTell(o);
    RecordsOfNames(o, run.clock, RunNames(o), v);
    forall q | q in Wanted(o) ensures Artifact(q) in RunNames(o) {
      NodeIsRun(o, run.clock, Lowering.ArtifactNode(q));
    }
    RecordsComplete(Wanted(o), ArtifactsOf(v), RunNames(o));
  }

  lemma NodeIsRun(o: Outcome, clock: Handle -> nat, n: Node)
    requires WellPlanned(o)
    requires || (exists q :: q in o.plan.requirements && n == Lowering.ArtifactNode(q))
             || (exists ob :: ob in o.plan.obligations
                              && n == Lowering.WarmupNodeOf(o.plan.request.topology, o.plan.requirements, ob))
    ensures n.name in RunNames(o)
  {
    AcceptedPlanExecutes(o, clock);
    Lowering.NodesAre(o.plan.request.topology, o.plan.requirements, o.plan.obligations, n);
    var names := Lowering.NodeNames(o.plan.graph.nodes);
    var i :| 0 <= i < |o.plan.graph.nodes| && o.plan.graph.nodes[i] == n;
    assert names[i] == n.name;
    assert n.name in multiset(names);
    assert n.name in multiset(RunNames(o));
  }

  // ---------------------------------------------------------------------------
  // Replay flags

  lemma ResultNamesOn(run: Run, v: seq<NodeResult>)
    requires WellPlanned(run.outcome) && AnsweredOn(run, v)
    ensures Map(v, RecordName) == RunNames(run.outcome)
  {
    hide WellPlanned;
    AcceptedPlanExecutes(run.outcome, run.clock);
    AnswerNames(BuildOf(run.outcome, run.clock), RunNames(run.outcome), v);
  }

  lemma AnswerNames(b: Build, names: seq<Handle>, v: seq<NodeResult>)
    requires Prepared(b) && Known(b.index, names) && Answered(b, names, v)
    ensures Map(v, RecordName) == names
  {
    forall i | 0 <= i < |names| ensures RecordName(v[i]) == names[i] {
      assert Answers(b, names[i], v[i]);
    }
  }

  lemma ObligationRan(run: Run, v: seq<NodeResult>, ob: Obligation)
    requires WellPlanned(run.outcome) && ob in run.outcome.plan.obligations && AnsweredOn(run, v)
    ensures Warmup(WarmupLabel(ob)) in RunNames(run.outcome)
    ensures exists n :: n in NodeRecords(v) && n.name == Warmup(WarmupLabel(ob))
  {
    var (o, name) := (run.outcome, Warmup(WarmupLabel(ob)));
    NodeIsRun(o, run.clock, Lowering.WarmupNodeOf(o.plan.request.topology, o.plan.requirements, ob));
    ResultNamesOn(run, v);
    var i :| 0 <= i < |RunNames(o)| && RunNames(o)[i] == name;
    assert NodeRecords(v)[i].name == Map(v, RecordName)[i];
  }

  lemma ManifestIsProduced(o: Outcome, artifacts: map<StorageKey, ArtifactRecord>)
    requires WellPlanned(o) && Closed(o) && Complete(Wanted(o), artifacts)
    ensures ManifestProduced(o.plan.manifest, artifacts)
  {
    forall m | m in o.plan.manifest
      ensures exists k :: k in artifacts && artifacts[k].result.document.manifestIdentity == m.identity
    {
      var i :| 0 <= i < |o.plan.manifest| && o.plan.manifest[i] == m;
      var q := o.plan.requirements[i];
      WantedIs(o, q);
      RecordedDocument(Wanted(o), artifacts, q);
    }
  }

  lemma RecordedDocument(want: map<Requirement, Document>, artifacts: map<StorageKey, ArtifactRecord>, q: Requirement)
    requires Complete(want, artifacts) && q in want
    ensures var key := want[q].storageKey;
            && key in artifacts && artifacts[key].rankCount == 1
            && var d := artifacts[key].result.document;
               && d.manifestIdentity == want[q].manifestIdentity && d.scope == want[q].scope
               && d.rankDisposition == want[q].rankDisposition
  {
    assert Recorded(want, artifacts, q);
    var d := artifacts[want[q].storageKey].result.document;
    assert Untimed(d) == want[q];
  }

  /** After any successful execution of an accepted plan, on any cache and in any interleaving,
      the warmup, autotune and cache compatibility flags of its replay proof are set. */
  lemma ReplayFlagsHold(run: Run, report: Report)
    requires WellPlanned(run.outcome) && Reports(run, report)
    ensures var proof := ReplayProofOf(run.outcome.plan, report);
            proof.warmupClosure && proof.autotuneClosure && proof.cacheCompatible
  {
    var v := ReportIsAnswered(run, report);
    WellPlannedIsClosed(run.outcome);
    ReportRecords(run, v);
    ManifestIsProduced(run.outcome, ArtifactsOf(v));
    forall ob | ob in run.outcome.plan.obligations
      ensures exists n :: n in NodeRecords(v) && n.name == Warmup(WarmupLabel(ob))
    {
      ObligationRan(run, v, ob);
    }
  }

  // ---------------------------------------------------------------------------
  // Closure

  lemma LabelsUnique(t: Topology, requirements: seq<Requirement>, obligations: seq<Obligation>, i: nat, j: nat)
    requires UniqueNames(Lowering.NodesOf(t, requirements, obligations))
    requires i < |obligations| && j < |obligations| && WarmupLabel(obligations[i]) == WarmupLabel(obligations[j])
    ensures i == j
  {
    var (nodes, first) := (Lowering.NodesOf(t, requirements, obligations), Lowering.ArtifactNodes(t, requirements));
    assert nodes[|first| + i].name == Warmup(WarmupLabel(obligations[i]));
    assert nodes[|first| + j].name == Warmup(WarmupLabel(obligations[j]));
  }

  /** Unique node names make warmup labels unique. */
  lemma UniqueWarmups(o: Outcome, ob: Obligation, ob': Obligation)
    requires WellPlanned(o) && ob in o.plan.obligations && ob' in o.plan.obligations
    requires WarmupLabel(ob) == WarmupLabel(ob')
    ensures ob == ob'
  {
    var i: nat :| i < |o.plan.obligations| && o.plan.obligations[i] == ob;
    var j: nat :| j < |o.plan.obligations| && o.plan.obligations[j] == ob';
    LabelsUnique(o.plan.request.topology, o.plan.requirements, o.plan.obligations, i, j);
  }

  lemma WarmupIsIndexed(o: Outcome, ob: Obligation)
    requires WellPlanned(o) && ob in o.plan.obligations
    ensures var (index, name) := (WarmupIndex(o.plan.obligations), Warmup(WarmupLabel(ob)));
            name in index && index[name] == ob
  {
    var (index, name) := (WarmupIndex(o.plan.obligations), Warmup(WarmupLabel(ob)));
    WarmupIndexIs(o.plan.obligations, name);
    UniqueWarmups(o, ob, index[name]);
  }

  ghost predicate Warmed(obligations: seq<Obligation>, x: string) {
    exists ob :: ob in obligations && ob.regionName == x
  }

  /** A backed piece of evidence stays bounded exactly when its declared warmup scopes were
      observed. */
  lemma BoundedExactly(e: JitEvidence, requirements: seq<Requirement>, obligations: seq<Obligation>,
                       scopes: set<string>, warmups: set<string>, proofs: set<string>)
    requires Backed(requirements, obligations, e)
    requires forall q :: q in requirements ==> q.scope in scopes
    requires forall ob :: ob in obligations ==> ob.proof.proofId in proofs
    ensures ObservationFor(e, scopes, warmups, proofs).status == Bounded <==>
              forall x :: x in e.declaredWarmupScopes ==> x in warmups
  {
    var missing := set scope | scope in e.declaredWarmupScopes && scope !in warmups :: WarmupUnobserved(scope);
    assert ObservationFor(e, scopes, warmups, proofs).contradictions == missing;
    if x :| x in e.declaredWarmupScopes && x !in warmups {
      assert WarmupUnobserved(x) in missing;
    }
  }

  lemma WarmupsObserved(o: Outcome, completed: set<Handle>)
    requires WellPlanned(o)
    requires forall ob :: ob in o.plan.obligations ==> Warmup(WarmupLabel(ob)) in completed
    ensures var index := WarmupIndex(o.plan.obligations);
            && (forall x :: x in (set n | n in index && n in completed :: index[n].regionName) <==>
                              Warmed(o.plan.obligations, x))
            && (forall ob :: ob in o.plan.obligations ==>
                  ob.proof.proofId in (set n | n in index && n in completed :: index[n].proof.proofId))
  {
    var index := WarmupIndex(o.plan.obligations);
    forall ob | ob in o.plan.obligations
      ensures Warmup(WarmupLabel(ob)) in index && index[Warmup(WarmupLabel(ob))] == ob
    {
      WarmupIsIndexed(o, ob);
    }
    forall n | n in index ensures index[n] in o.plan.obligations {
      WarmupIndexIs(o.plan.obligations, n);
    }
  }

  ghost predicate FullyWarmed(p: BuildPlan) {
    forall e, x :: e in p.evidence && x in e.declaredWarmupScopes ==> Warmed(p.obligations, x)
  }

  lemma ObservationsBounded(o: Outcome, scopes: set<string>, completed: set<Handle>)
    requires WellPlanned(o)
    requires forall q :: q in o.plan.requirements ==> q.scope in scopes
    requires forall ob :: ob in o.plan.obligations ==> Warmup(WarmupLabel(ob)) in completed
    ensures (exists x :: x in ObservedJit(o, scopes, completed) && x.status == Contradicted) <==> !FullyWarmed(o.plan)
  {
    hide WarmupIndex, ObservationFor, Backed, ToldApart, Surveyed, SurveyHolds, Lowering.GraphOf, ManifestOf, Warmed;
    var index := WarmupIndex(o.plan.obligations);
    var warmups := set n | n in index && n in completed :: index[n].regionName;
    var proofs := set n | n in index && n in completed :: index[n].proof.proofId;
    var observe := (e: JitEvidence) => ObservationFor(e, scopes, warmups, proofs);
    WarmupsObserved(o, completed);
    MapContains(o.plan.evidence, observe);
    forall e | e in o.plan.evidence
      ensures observe(e).status == Bounded <==>
                forall x :: x in e.declaredWarmupScopes ==> Warmed(o.plan.obligations, x)
    {
      BoundedExactly(e, o.plan.requirements, o.plan.obligations, scopes, warmups, proofs);
    }
  }

  lemma ScopesObserved(o: Outcome, artifacts: map<StorageKey, ArtifactRecord>, q: Requirement)
    requires WellPlanned(o) && Closed(o) && Complete(Wanted(o), artifacts) && q in o.plan.requirements
    ensures q.scope in ScopesOf(artifacts)
  {
    WantedIs(o, q);
    RecordedDocument(Wanted(o), artifacts, q);
  }

  /** The closure is full exactly when every warmup scope that some run-time compilation
      surface declares has an obligation in the plan. */
  lemma ClosureIsFullExactly(run: Run, report: Report)
    requires WellPlanned(run.outcome) && Reports(run, report)
    ensures report.closure == FullCompileClosure <==> FullyWarmed(run.outcome.plan)
    ensures ReplayProofOf(run.outcome.plan, report).compileClosure <==> FullyWarmed(run.outcome.plan)
  {
    var o := run.outcome;
    var v := ReportIsAnswered(run, report);
    WellPlannedIsClosed(o);
    ReportRecords(run, v);
    ResultNamesOn(run, v);
    var (scopes, completed) := (ScopesOf(ArtifactsOf(v)), Names(Map(v, RecordName)));
    forall q | q in o.plan.requirements ensures q.scope in scopes {
      ScopesObserved(o, ArtifactsOf(v), q);
    }
    forall ob | ob in o.plan.obligations ensures Warmup(WarmupLabel(ob)) in completed {
      ObligationRan(run, v, ob);
    }
    ObservationsBounded(o, scopes, completed);
    GatesAreFree();
  }

  lemma GatesAreFree()
    ensures GateIsFree(OperatorGates, "verify") && GateIsFree(OperatorGates, "replay")
  {
    assert OperatorGates[0].command == "verify" && OperatorGates[1].command == "replay";
    assert "verify"[0] != "replay"[0];
    assert GateIsFree(OperatorGates, "replay") == GateIsFree(OperatorGates[1..], "replay");
    assert OperatorGates[1..][0] == OperatorGates[1];
  }

  // ---------------------------------------------------------------------------
  // Transparency

  /** The parts of a replay proof that speak about the result, not about how it came about. */
  ghost predicate SameResult(a: ReplayProof, b: ReplayProof) {
    a == b.(realization := a.realization, mode := a.mode)
  }

  /** Two records of one artifact, whatever their times and dispositions. */
  ghost predicate SameArtifact(a: ArtifactRecord, b: ArtifactRecord) {
    Untimed(a.result.document) == Untimed(b.result.document) && a.rankCount == b.rankCount
  }

  lemma CompleteAgree(want: map<Requirement, Document>, a: map<StorageKey, ArtifactRecord>, b: map<StorageKey,
                      ArtifactRecord>)
    requires Complete(want, a) && Complete(want, b)
    ensures a.Keys == b.Keys
    ensures forall k :: k in a.Keys ==> k in b && k in a && SameArtifact(a[k], b[k])
  {
    forall k | k in a.Keys ensures k in b && k in a && SameArtifact(a[k], b[k]) {
      assert k in b.Keys;
      var q :| q in want && k == want[q].storageKey;
      assert Recorded(want, a, q) && Recorded(want, b, q);
    }
  }

  lemma SameRecords(a: map<StorageKey, ArtifactRecord>, b: map<StorageKey, ArtifactRecord>)
    requires a.Keys == b.Keys
    requires forall k :: k in a.Keys ==> k in b && k in a && SameArtifact(a[k], b[k])
    ensures CompatibilityOf(a) == CompatibilityOf(b) && PlacementsOf(a) == PlacementsOf(b)
    ensures ProducedBy(a) == ProducedBy(b)
  {
    assert forall k :: k in a <==> k in b by {
      assert forall k :: k in a.Keys <==> k in b.Keys;
    }
  }

  lemma SamePlacement(t: Topology, a: map<StorageKey, ArtifactRecord>, b: map<StorageKey, ArtifactRecord>)
    requires PlacementsOf(a) == PlacementsOf(b) && PlacedAsPlanned(t, a)
    ensures PlacedAsPlanned(t, b)
  {
    forall k | k in b
      ensures match b[k].result.document.rankDisposition
              case Shared => b[k].rankCount == ReplicaRanks(t)
              case RankLocal => b[k].rankCount >= 1
    {
      assert k in PlacementsOf(b) && PlacementsOf(a)[k] == PlacementsOf(b)[k];
      assert k in a;
    }
  }

  lemma ProofsAgree(p: BuildPlan, a: Report, b: Report)
    requires CompatibilityOf(a.artifacts) == CompatibilityOf(b.artifacts)
    requires PlacementsOf(a.artifacts) == PlacementsOf(b.artifacts)
    requires ProducedBy(a.artifacts) == ProducedBy(b.artifacts)
    requires var (x, y) := (ReplayProofOf(p, a), ReplayProofOf(p, b));
             x.compileClosure == y.compileClosure && x.warmupClosure == y.warmupClosure
             && x.autotuneClosure == y.autotuneClosure && x.cacheCompatible == y.cacheCompatible
    ensures SameResult(ReplayProofOf(p, a), ReplayProofOf(p, b))
  {
    var t := p.request.topology;
    if PlacedAsPlanned(t, a.artifacts) { SamePlacement(t, a.artifacts, b.artifacts); }
    if PlacedAsPlanned(t, b.artifacts) { SamePlacement(t, b.artifacts, a.artifacts); }
  }

  lemma SameArtifactRecords(run: Run, report: Report, run': Run, report': Report)
    requires WellPlanned(run.outcome) && run'.outcome == run.outcome && Reports(run, report) && Reports(run', report')
    ensures var (a, b) := (report.artifacts, report'.artifacts);
            && CompatibilityOf(a) == CompatibilityOf(b) && PlacementsOf(a) == PlacementsOf(b)
            && ProducedBy(a) == ProducedBy(b)
  {
    hide WellPlanned, Reports, Complete;
    var v := ReportIsAnswered(run, report);
    var v' := ReportIsAnswered(run', report');
    WellPlannedIsClosed(run.outcome);
    ReportRecords(run, v);
    ReportRecords(run', v');
    CompleteAgree(Wanted(run.outcome), ArtifactsOf(v), ArtifactsOf(v'));
    SameRecords(ArtifactsOf(v), ArtifactsOf(v'));
  }

  /** Rebuilding and reusing are indistinguishable in the result: whatever two caches hold,
      however long two executions of one accepted plan take and however their workers
      interleave, the replay proofs agree on everything but dispositions. */
  lemma ReplayIsTransparent(run: Run, report: Report, run': Run, report': Report)
    requires WellPlanned(run.outcome) && run'.outcome == run.outcome && Reports(run, report) && Reports(run', report')
    ensures SameResult(ReplayProofOf(run.outcome.plan, report), ReplayProofOf(run.outcome.plan, report'))
  {
    hide WellPlanned, Reports, ReplayProofOf;
    SameArtifactRecords(run, report, run', report');
    ReplayFlagsHold(run, report);
    ReplayFlagsHold(run', report');
    ClosureIsFullExactly(run, report);
    ClosureIsFullExactly(run', report');
    ProofsAgree(run.outcome.plan, report, report');
  }

  /** The topology flag is set exactly when no artifact is shared or there is one rank in
      all: an artifact's rank count is always one. */
  lemma TopologyFlagExactly(run: Run, report: Report)
    requires WellPlanned(run.outcome) && Reports(run, report)
    ensures ReplayProofOf(run.outcome.plan, report).topologyReuse <==>
              || (forall q :: q in run.outcome.plan.requirements ==> q.rankDisposition == RankLocal)
              || ReplicaRanks(run.outcome.plan.request.topology) == 1
  {
    var v := ReportIsAnswered(run, report);
    WellPlannedIsClosed(run.outcome);
    ReportRecords(run, v);
    CompletePlacement(run.outcome, ArtifactsOf(v));
  }

  lemma CompletePlacement(o: Outcome, artifacts: map<StorageKey, ArtifactRecord>)
    requires WellPlanned(o) && Closed(o) && Complete(Wanted(o), artifacts)
    ensures PlacedAsPlanned(o.plan.request.topology, artifacts) <==>
              || (forall q :: q in o.plan.requirements ==> q.rankDisposition == RankLocal)
              || ReplicaRanks(o.plan.request.topology) == 1
  {
    var want := Wanted(o);
    forall q | q in o.plan.requirements
      ensures q in want && want[q].storageKey in artifacts
      ensures var a := artifacts[want[q].storageKey];
              a.rankCount == 1 && a.result.document.rankDisposition == q.rankDisposition
    {
      WantedIs(o, q);
      RecordedDocument(want, artifacts, q);
    }
  }

  // ---------------------------------------------------------------------------
  // From request to replay proof

  lemma CorrectnessIsWarmed(r: Request, s: Selection, regions: seq<CompileRegion>, scope: BuildScope,
                            env: OptimizationEnvelope,
                            region: CompileRegion)
    requires scope.readiness != Some(EarlyServeBuild) && Reaches(regions, Correctness) && region in regions
    ensures Warmed(Obligations(r.topology, ScopedShapes(ShapeEnvelope(r, s, env), regions, scope), regions, env, scope),
                   region.name)
  {
    var n := CorrectnessNode(r, s.primary.family);
    EnvelopeIs(r, s, env, n);
    ScopedShapesAre(ShapeEnvelope(r, s, env), regions, scope, n);
    var o := ObligationOf(r.topology, env, n, region);
    ObligationsAre(r.topology, ScopedShapes(ShapeEnvelope(r, s, env), regions, scope), regions, env, scope, o);
    assert Owes(r.topology, ScopedShapes(ShapeEnvelope(r, s, env), regions, scope), regions, env, n, region, o);
    assert o.regionName == region.name;
  }

  lemma DeclaredIsNamed(r: Request, s: Selection, regions: seq<CompileRegion>, obligations: seq<Obligation>,
                        requirements: seq<Requirement>, survey: Survey, e: JitEvidence, x: string)
    requires e in Evidence(r, s, regions, obligations, requirements, survey) && x in e.declaredWarmupScopes
    ensures NamesRegion(regions, x)
  {
    EvidenceIs(r, s, regions, obligations, requirements, survey, e);
  }

  lemma PlanIsFullyWarmed(r: Request, survey: Survey, scope: BuildScope, p: BuildPlan)
    requires p.shapes == ScopedShapes(ShapeEnvelope(r, p.selection, p.envelope), p.regions, scope)
    requires p.obligations == Obligations(r.topology, p.shapes, p.regions, p.envelope, scope)
    requires p.evidence == Evidence(r, p.selection, p.regions, p.obligations, p.requirements, survey)
    requires scope.readiness != Some(EarlyServeBuild) && Reaches(p.regions, Correctness)
    ensures FullyWarmed(p)
  {
    forall e, x | e in p.evidence && x in e.declaredWarmupScopes ensures Warmed(p.obligations, x) {
      DeclaredIsNamed(r, p.selection, p.regions, p.obligations, p.requirements, survey, e, x);
      var region :| region in p.regions && region.name == x;
      CorrectnessIsWarmed(r, p.selection, p.regions, scope, p.envelope, region);
    }
  }

  /** Unless only early serving was asked for, a plan with a region on the correctness plane
      closes fully: every declared warmup scope is a planned region, and the correctness
      range warms every region. */
  lemma CorrectnessBuildsCloseFully(host: Host, r: Request, survey: Survey, scope: BuildScope, ids: Digests,
                                    p: BuildPlan)
    requires PlanFor(host, r, survey, scope, ids) == Success(p)
    requires scope.readiness != Some(EarlyServeBuild) && Reaches(p.regions, Correctness)
    ensures FullyWarmed(p)
  {
    PlanIsMade(host, r, survey, scope, ids);
    PlanIsFullyWarmed(r, survey, scope, p);
  }

  /** Executes an accepted plan. On a cache in which keys decide where documents are filed,
      as every history leaves it, the report and the new cache are those of the sequential
      run, unless a parallel batch races; then a cache entry may vanish under a worker. */
  method ExecuteAccepted(o: Outcome, clock: Handle -> nat, root: CacheRoot) returns (r: Result<Report, ExecutionError>)
    requires WellPlanned(o)
    modifies root
    ensures CanExecute(Run(o, clock), old(root.files), root.files, r)
    ensures r.Success? ==> Reports(Run(o, clock), r.value) && r.value.planIdentity == o.plan.identity
    ensures Filed(Filing(o.survey), old(root.files)) ==>
              && (r.Success? ==> r.value == ReportOn(Run(o, clock), old(root.files)))
              && (r.Success? ==> root.files == RunCache(old(root.files), RunJobs(Run(o, clock))))
              && (r.Failure? ==> r.error == CacheIo && MayFail(Run(o, clock), old(root.files)))
              && Filed(Filing(o.survey), root.files) && (Inv(old(root.files)) ==> Inv(root.files))
  {
    hide WellPlanned, BuildOf, ReportOn, RunJobs, MayFail, Filed, Inv, ExecutesTo;
    AcceptedPlanExecutes(o, clock);
    r := Execute(o, clock, root);
    ghost var run := Run(o, clock);
    assert CanExecute(run, old(root.files), root.files, r);
    if r.Success? {
      ghost var v := ReportIsAnswered(run, r.value);
    }
    if Filed(Filing(o.survey), old(root.files)) {
      SuccessIsSequential(run, old(root.files), root.files, r);
      ExecutionKeepsCache(run, old(root.files), root.files, r);
    }
  }
}
