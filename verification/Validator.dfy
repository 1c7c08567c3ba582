/** The validator as it runs: one growing list of issues, filled check by check. */
module Validator {
  import opened Ordering
  import opened Collections
  import opened Types
  import opened Scope
  import opened Planner
  import opened Plan

  method Push(bad: bool, code: IssueCode, before: seq<IssueCode>) returns (issues: seq<IssueCode>)
    ensures issues == before + Flag(bad, code)
  {
    issues := before;
    if bad {
      issues := issues + [code];
    }
  }

  /** A checking loop: every item adds its own issues, in order. */
  method PushEach<T>(items: seq<T>, check: T -> seq<IssueCode>, before: seq<IssueCode>) returns (issues: seq<IssueCode>)
    ensures issues == before + FlatMap(items, check)
  {
    issues := before;
    for i := 0 to |items|
      invariant issues == before + FlatMap(items[..i], check)
    {
      assert items[..i + 1][..i] == items[..i];
      issues := issues + check(items[i]);
    }
    assert items[..|items|] == items;
  }

  /** Some item is bad. */
  method AnyOf<T>(items: seq<T>, bad: T -> bool) returns (found: bool)
    ensures found <==> exists x :: x in items && bad(x)
  {
    found := false;
    for i := 0 to |items|
      invariant found <==> exists x :: x in items[..i] && bad(x)
    {
      assert items[..i + 1] == items[..i] + [items[i]];
      if bad(items[i]) {
        found := true;
      }
    }
    assert items[..|items|] == items;
  }

  /** How many items are meant. */
  method CountOf<T(!new)>(items: seq<T>, meant: T -> bool) returns (count: nat)
    ensures count == |Filter(items, meant)|
  {
    count := 0;
    for i := 0 to |items|
      invariant count == |Filter(items[..i], meant)|
    {
      assert items[..i + 1][..i] == items[..i];
      if meant(items[i]) {
        count := count + 1;
      }
    }
    assert items[..|items|] == items;
  }

  method SumSteps(obligations: seq<Obligation>) returns (total: u32)
    ensures total == Wrapped(TotalSteps(obligations))
  {
    total := 0;
    for i := 0 to |obligations|
      invariant total == Wrapped(TotalSteps(obligations[..i]))
    {
      assert obligations[..i + 1][..i] == obligations[..i];
      total := Wrapped(total + obligations[i].stepCount);
    }
    assert obligations[..|obligations|] == obligations;
  }

  /** Collects the names of the shapes, takes away the names that obligations warm, and keeps
      those whose first shape of that name is not residual. */
  method FindUnwarmed(shapes: seq<ShapeNode>, obligations: seq<Obligation>) returns (missing: set<string>)
    ensures missing != {} <==> MissesWarmup(shapes, obligations)
    ensures forall name :: name in missing ==>
                             && (exists n :: n in shapes && n.name == name)
                             && (forall o :: o in obligations ==> o.nodeName != name)
  {
    var planned: set<string> := {};
    for i := 0 to |shapes|
      invariant forall name :: name in planned <==> exists n :: n in shapes[..i] && n.name == name
    {
      assert shapes[..i + 1] == shapes[..i] + [shapes[i]];
      planned := planned + {shapes[i].name};
    }
    assert shapes[..|shapes|] == shapes;
    var warmed: set<string> := {};
    for i := 0 to |obligations|
      invariant forall name :: name in warmed <==> exists o :: o in obligations[..i] && o.nodeName == name
    {
      assert obligations[..i + 1] == obligations[..i] + [obligations[i]];
      warmed := warmed + {obligations[i].nodeName};
    }
    assert obligations[..|obligations|] == obligations;
    missing := {};
    var left := planned - warmed;
    while left != {}
      invariant left <= planned - warmed
      invariant forall name :: name in missing <==> name in planned - warmed - left && NeedsWarmup(shapes, name)
      decreases left
    {
      var name :| name in left;
      if NeedsWarmup(shapes, name) {
        missing := missing + {name};
      }
      left := left - {name};
    }
    UnwarmedIsMissed(shapes, obligations, planned, warmed, missing);
  }

  predicate NeedsWarmup(shapes: seq<ShapeNode>, name: string) {
    var first := FirstNamed(shapes, name);
    first.Some? && first.value.intent != UncoveredResidual
  }

  lemma UnwarmedIsMissed(shapes: seq<ShapeNode>, obligations: seq<Obligation>, planned: set<string>,
                         warmed: set<string>,
                         missing: set<string>)
    requires forall name :: name in planned <==> exists n :: n in shapes && n.name == name
    requires forall name :: name in warmed <==> exists o :: o in obligations && o.nodeName == name
    requires forall name :: name in missing <==> name in planned - warmed && NeedsWarmup(shapes, name)
    ensures missing != {} <==> MissesWarmup(shapes, obligations)
  {
    hide FirstNamed;
    if MissesWarmup(shapes, obligations) {
      var n :| n in shapes && (forall o | o in obligations :: o.nodeName != n.name) && NeedsWarmup(shapes, n.name);
      assert n.name in missing;
    }
    if name :| name in missing {
      var n :| n in shapes && n.name == name;
      assert forall o | o in obligations :: o.nodeName != n.name;
    }
  }

  /** A name already in the set of names seen is a duplicate. */
  method FindDuplicates(nodes: seq<Node>) returns (duplicates: seq<Handle>)
    ensures duplicates != [] <==> DuplicateNames(nodes)
    ensures forall name :: name in duplicates ==>
              exists i, j :: 0 <= i < j < |nodes| && nodes[i].name == name == nodes[j].name
  {
    duplicates := [];
    var seen: set<Handle> := {};
    for k := 0 to |nodes|
      invariant seen == set i | 0 <= i < k :: nodes[i].name
      invariant duplicates != [] <==> DuplicateNames(nodes[..k])
      invariant forall name :: name in duplicates ==>
                exists i, j :: 0 <= i < j < k && nodes[i].name == name == nodes[j].name
    {
      ExtendDuplicates(nodes, k);
      if nodes[k].name in seen {
        duplicates := duplicates + [nodes[k].name];
      }
      seen := seen + {nodes[k].name};
    }
    assert nodes[..|nodes|] == nodes;
  }

  lemma ExtendDuplicates(nodes: seq<Node>, k: nat)
    requires k < |nodes|
    ensures DuplicateNames(nodes[..k + 1]) <==>
              DuplicateNames(nodes[..k]) || exists i :: 0 <= i < k && nodes[i].name == nodes[k].name
  {
    var (short, long) := (nodes[..k], nodes[..k + 1]);
    if DuplicateNames(short) {
      var i, j :| 0 <= i < j < |short| && NameOf(short[i]) == NameOf(short[j]);
      assert NameOf(long[i]) == NameOf(long[j]);
    }
    if i :| 0 <= i < k && nodes[i].name == nodes[k].name {
      assert NameOf(long[i]) == NameOf(long[k]);
    }
    if DuplicateNames(long) {
      var i, j :| 0 <= i < j < |long| && NameOf(long[i]) == NameOf(long[j]);
      assert j < k ==> NameOf(short[i]) == NameOf(short[j]);
    }
  }

  method CheckSelection(p: BuildPlan) returns (issues: seq<IssueCode>)
    ensures issues == SelectionIssues(p)
  {
    hide SelectsAmong, Unmet, HasWitness, Flag;
    var foreignRegion := AnyOf(p.regions, (region: CompileRegion) => !SelectsAmong(p.selection, region.family));
    issues := Push(foreignRegion, CompileRegionBackendOutOfSelection, []);
    assert issues == Flag(foreignRegion, CompileRegionBackendOutOfSelection);
    var foreignArtifact := AnyOf(p.requirements, (q: Requirement) => !SelectsAmong(p.selection, q.backend));
    issues := Push(foreignArtifact, ArtifactBackendOutOfSelection, issues);
    issues := Push(p.selection.primary.family == FlashInfer && !HasWitness(p.witnesses, "flashinfer.prebuilt"),
                   MissingFlashinferWitness, issues);
    issues := Push(Unmet(p.guarantee.achievedCorrectness, p.guarantee.requestedCorrectness), CorrectnessTargetUnmet,
                   issues);
    issues := Push(Unmet(p.guarantee.achievedPerformance, p.guarantee.requestedPerformance), PerformanceTargetUnmet,
                   issues);
  }

  method CheckCoverage(p: BuildPlan) returns (issues: seq<IssueCode>)
    ensures issues == CoverageIssues(p)
  {
    hide MissesWarmup, ManifestOf, Sort, ManifestLe, UnknownFrontier, DuplicateNames, FlatMap, ProofMismatch;
    var unwarmed := FindUnwarmed(p.shapes, p.obligations);
    issues := Push(unwarmed != {} && p.readiness != Some(EarlyServeBuild), WarmupIncomplete, []);
    var unscoped := AnyOf(p.manifest, (m: ManifestEntry) => m.scope == []);
    issues := Push(unscoped, ArtifactScopeMissing, issues);
    var expected := ManifestOf(p.selection.primary.family, p.requirements);
    issues := Push(Sort(p.manifest, ManifestLe) != Sort(expected, ManifestLe), ArtifactManifestInvalidReuse, issues);
    issues := PushEach(p.obligations, (o: Obligation) => Flag(ProofMismatch(o), WarmupProofMismatch), issues);
    issues := Push(UnknownFrontier(p.graph), EarlyServeFrontierInvalid, issues);
    var duplicates := FindDuplicates(p.graph.nodes);
    issues := Push(duplicates != [], MaterializationNodeDuplicate, issues);
  }

  method CheckBudgets(p: BuildPlan) returns (issues: seq<IssueCode>)
    ensures issues == BudgetIssues(p)
  {
    var residual := CountOf(p.shapes, (n: ShapeNode) => n.intent == UncoveredResidual);
    var policy := p.request.backendPolicy;
    issues := Flag(residual > 0 && policy.jitDisposition == Forbidden, ResidualJitForbidden);
    issues := Push(policy.jitDisposition == ShapeBounded && policy.packaging != PreferPrebuiltThenAotThenJit,
                   BoundedJitPolicyMismatch, issues);
    issues := Push(residual > policy.maxResidualNodes, ResidualJitBudgetExceeded, issues);
    var steps := SumSteps(p.obligations);
    issues := Push(steps > p.envelope.maxWarmupSteps, WarmupBudgetExceeded, issues);
    issues := Push(|p.requirements| > p.envelope.maxArtifacts, ArtifactBudgetExceeded, issues);
    var local := CountOf(p.requirements, (q: Requirement) => q.rankDisposition == RankLocal);
    issues := Push(local > p.envelope.maxRankLocal, RankLocalBudgetExceeded, issues);
  }

  method CheckProofs(p: BuildPlan) returns (issues: seq<IssueCode>)
    ensures issues == ProofIssues(p)
  {
    issues := Flag(p.selection.primary.proof.verdict != Admissible, BackendSelectionNotAdmissible);
    issues := PushEach(p.requirements, (q: Requirement) => Flag(!q.proof.failClosed, ArtifactNotFailClosed), issues);
    issues := PushEach(p.selection.primary.proof.requiredWitnesses, (key: string) => WitnessIssues(p.witnesses, key),
                       issues);
    var lazy := AnyOf(p.guarantee.risks, (k: Risk) => k.hazard == ResidualLazyCompile);
    issues := Push(lazy && p.evidence == [], JitEvidenceMissing, issues);
    issues := PushEach(p.evidence, (e: JitEvidence) => EvidenceIssues(p, e), issues);
  }

  method CheckRecord(p: BuildPlan) returns (issues: seq<IssueCode>)
    ensures issues == RecordIssues(p)
  {
    issues := PushEach(OperatorGates,
                       (g: OperatorGate) => Flag(g.compileFree && g.forbiddenQueues == [], OperatorGateIncomplete), []);
    issues := PushEach(p.trace, (t: PassTrace) => Flag(PassBroken(t), RewritePassContractViolation), issues);
    issues := PushEach(p.decision, (e: DecisionEntry) => DecisionIssues(p.selection, e), issues);
  }

  method ValidatePlan(p: BuildPlan) returns (report: VerificationReport)
    ensures report == Validate(p)
  {
    var selection := CheckSelection(p);
    var coverage := CheckCoverage(p);
    var budgets := CheckBudgets(p);
    var proofs := CheckProofs(p);
    var record := CheckRecord(p);
    var issues := selection + coverage + budgets + proofs + record;
    IssuesAre(p);
    return VerificationReport(if issues == [] then Passed else FailedValidation, issues, p.evidence, OperatorGates);
  }
}
