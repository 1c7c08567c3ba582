/** What every plan the planner assembles satisfies before it is validated. */
module PlannerFacts {
  import opened Ordering
  import opened Collections
  import opened Types
  import opened Scope
  import opened Planner
  import opened Plan
  import opened Resolution
  import Lowering

  /** `s` and `regions` are what the planner settled on for this request. */
  ghost predicate Settles(host: Host, r: Request, survey: Survey, scope: BuildScope, s: Selection,
                          regions: seq<CompileRegion>) {
    && Selected(r, CapabilityWitnesses(host, r, survey), Registry(r)).Success?
    && s == Narrowed(Selected(r, CapabilityWitnesses(host, r, survey), Registry(r)).value, EnvelopeOf(r.level))
    && regions == CompileRegions(s, survey, scope)
    && regions != []
  }

  // ---------------------------------------------------------------------------
  // Regions

  lemma RegionsAre(s: Selection, survey: Survey, scope: BuildScope, region: CompileRegion)
    ensures region in CompileRegions(s, survey, scope) <==>
              exists sr :: sr in survey.regions && KeepsRegion(sr, s, scope) && region == CompileRegionOf(sr, s)
  {
    var kept := Filter(survey.regions, (sr: SurveyRegion) => KeepsRegion(sr, s, scope));
    MapContains(kept, (sr: SurveyRegion) => CompileRegionOf(sr, s));
    SortPermutes(Map(kept, (sr: SurveyRegion) => CompileRegionOf(sr, s)), RegionLe);
  }

  lemma RegionFamilySelected(s: Selection, survey: Survey, scope: BuildScope, region: CompileRegion)
    requires region in CompileRegions(s, survey, scope)
    ensures SelectsAmong(s, region.family)
  {
    RegionsAre(s, survey, scope, region);
    var sr :| sr in survey.regions && KeepsRegion(sr, s, scope) && region == CompileRegionOf(sr, s);
    SelectedAmong(s, region.family);
  }

  lemma SelectedAmong(s: Selection, f: BackendFamily)
    ensures Selects(s, f) <==> SelectsAmong(s, f)
  {
    assert s.All()[0] == s.primary;
    forall c | c in s.secondary ensures c in s.All() {}
  }

  lemma {:induction false} CoveredExpansion(
      r: Request, ws: seq<Witness>, registry: seq<Capability>, candidates: seq<Candidate>, regions: seq<CompileRegion>)
    requires forall region :: region in regions ==> exists c :: c in candidates && c.family == region.family
    ensures Expanded(r, ws, registry, candidates, regions) == Success(candidates)
    decreases regions
  {
    if regions != [] {
      assert regions[0] in regions;
      CoveredExpansion(r, ws, registry, candidates, regions[1..]);
    }
  }

  /** Expanding the selection by the backends of the compile regions adds nothing: a region
      is kept only when its backend is selected already. */
  lemma ExpansionIsIdentity(host: Host, r: Request, survey: Survey, scope: BuildScope, s: Selection)
    ensures var ws := CapabilityWitnesses(host, r, survey);
            Expanded(r, ws, Registry(r), s.All(), CompileRegions(s, survey, scope)) == Success(s.All())
  {
    var regions := CompileRegions(s, survey, scope);
    forall region | region in regions ensures exists c :: c in s.All() && c.family == region.family {
      RegionFamilySelected(s, survey, scope, region);
    }
    CoveredExpansion(r, CapabilityWitnesses(host, r, survey), Registry(r), s.All(), regions);
  }

  /** A plan is assembled exactly when the selection succeeds and some region is kept; the
      next lemma is the converse. */
  lemma PlanIsAssembled(host: Host, r: Request, survey: Survey, scope: BuildScope, ids: Digests)
    returns (s: Selection, regions: seq<CompileRegion>)
    requires PlanFor(host, r, survey, scope, ids).Success?
    ensures Settles(host, r, survey, scope, s, regions)
    ensures PlanFor(host, r, survey, scope, ids).value == AssemblePlan(host, r, survey, scope, ids, s, regions)
  {
    hide AssemblePlan, CompileRegions, CapabilityWitnesses, Selected, Registry, EnvelopeOf, Expanded;
    s := Narrowed(Selected(r, CapabilityWitnesses(host, r, survey), Registry(r)).value, EnvelopeOf(r.level));
    regions := CompileRegions(s, survey, scope);
    ExpansionIsIdentity(host, r, survey, scope, s);
    assert Selection(s.All()[0], s.All()[1..]) == s;
  }

  lemma SettledPlans(host: Host, r: Request, survey: Survey, scope: BuildScope, ids: Digests,
                     s: Selection, regions: seq<CompileRegion>)
    requires Settles(host, r, survey, scope, s, regions)
    ensures PlanFor(host, r, survey, scope, ids).Success?
  {
    ExpansionIsIdentity(host, r, survey, scope, s);
  }

  /** How the parts of a plan are made from each other. */
  ghost predicate MadeFrom(host: Host, r: Request, survey: Survey, scope: BuildScope, ids: Digests, p: BuildPlan) {
    && p.request == r && p.readiness == scope.readiness && p.envelope == EnvelopeOf(r.level)
    && p.witnesses == CapabilityWitnesses(host, r, survey)
    && Selected(r, p.witnesses, Registry(r)).Success?
    && p.selection == Narrowed(Selected(r, p.witnesses, Registry(r)).value, p.envelope)
    && p.regions == CompileRegions(p.selection, survey, scope)
    && p.shapes == ScopedShapes(ShapeEnvelope(r, p.selection, p.envelope), p.regions, scope)
    && p.requirements == ArtifactRequirements(r, p.witnesses, p.shapes, p.selection, p.regions, p.envelope, scope)
    && p.obligations == Obligations(r.topology, p.shapes, p.regions, p.envelope, scope)
    && p.graph == Lowering.GraphOf(r.topology, p.requirements, p.obligations)
    && p.guarantee == GuaranteeOf(r, p.shapes, p.guarantee.risks)
    && p.manifest == ManifestOf(p.selection.primary.family, p.requirements)
    && p.evidence == Evidence(r, p.selection, p.regions, p.obligations, p.requirements, survey)
    && p.trace == RewriteTrace(ids)
    && p.decision == Map(Registry(r), (c: Capability) =>
                           DecisionFor(r, p.witnesses, p.selection, p.regions, p.requirements, p.obligations, c))
  }

  lemma PlanIsMade(host: Host, r: Request, survey: Survey, scope: BuildScope, ids: Digests)
    requires PlanFor(host, r, survey, scope, ids).Success?
    ensures MadeFrom(host, r, survey, scope, ids, PlanFor(host, r, survey, scope, ids).value)
  {
    var s, regions := PlanIsAssembled(host, r, survey, scope, ids);
  }

  // ---------------------------------------------------------------------------
  // Selected backends

  /** A candidate's proof is admissible, belongs to its registry entry, and every witness
      it needs is present. */
  ghost predicate Justified(r: Request, ws: seq<Witness>, c: Candidate) {
    && c.proof.verdict == Admissible
    && (exists cap :: cap in Registry(r) && cap.family == c.family
                      && c.proof.requiredWitnesses == cap.requiredWitnesses)
    && (forall k :: k in c.proof.requiredWitnesses ==> HasWitness(ws, k))
  }

  lemma CandidateJustified(r: Request, ws: seq<Witness>, family: BackendFamily)
    requires CandidateFor(r, ws, Registry(r), family).Some?
    ensures Justified(r, ws, CandidateFor(r, ws, Registry(r), family).value)
    ensures CandidateFor(r, ws, Registry(r), family).value.family == family
  {
    var cap := FindCapability(Registry(r), family).value;
    var proofs := BackendProofs(r, ws, cap);
    var proof := FirstAdmissible(proofs).value;
    var i :| 0 <= i < |proofs| && proofs[i] == proof;
    assert proof == BackendProofFor(r, ws, cap, cap.acquisitions[i]);
    forall k | k in cap.requiredWitnesses ensures HasWitness(ws, k) {
      var missing := Filter(cap.requiredWitnesses, (k: string) => !HasWitness(ws, k));
      assert |missing| == |Map(missing, (k: string) => "missing witness `" + k + "`")|;
      assert missing == [];
    }
  }

  lemma {:induction false} ViableJustified(r: Request, ws: seq<Witness>, families: seq<BackendFamily>, c: Candidate)
    requires c in Viable(r, ws, Registry(r), families)
    ensures Justified(r, ws, c)
  {
    var n := |families| - 1;
    if c in Viable(r, ws, Registry(r), families[..n]) {
      ViableJustified(r, ws, families[..n], c);
    } else {
      CandidateJustified(r, ws, families[n]);
    }
  }

  lemma SelectionJustified(r: Request, ws: seq<Witness>, env: OptimizationEnvelope, s: Selection)
    requires Selected(r, ws, Registry(r)).Success? && s == Narrowed(Selected(r, ws, Registry(r)).value, env)
    ensures forall c :: c in s.All() ==> Justified(r, ws, c)
  {
    var viable := Viable(r, ws, Registry(r), r.backendPolicy.preferredFamilies);
    forall c | c in s.All() ensures Justified(r, ws, c) {
      assert c == viable[0] || c in viable[1..];
      ViableJustified(r, ws, r.backendPolicy.preferredFamilies, c);
    }
  }

  /** FlashInfer is never selected without its prebuilt witness. */
  lemma FlashInferWitnessed(r: Request, ws: seq<Witness>, c: Candidate)
    requires Justified(r, ws, c) && c.family == FlashInfer
    ensures HasWitness(ws, "flashinfer.prebuilt")
  {
    var cap :| cap in Registry(r) && cap.family == c.family && c.proof.requiredWitnesses == cap.requiredWitnesses;
    assert cap in AllCapabilities;
    assert cap.requiredWitnesses == ["flashinfer.prebuilt"];
    assert "flashinfer.prebuilt" in cap.requiredWitnesses;
  }

  // ---------------------------------------------------------------------------
  // Requirements and obligations

  lemma RequirementsAre(
      r: Request, ws: seq<Witness>, shapes: seq<ShapeNode>, s: Selection, regions: seq<CompileRegion>,
      env: OptimizationEnvelope, scope: BuildScope, q: Requirement)
    ensures q in ArtifactRequirements(r, ws, shapes, s, regions, env, scope) <==>
              || (exists region :: region in regions && scope.AllowsArtifactScope(region.name)
                                   && (q == GraphRequirement(r, ws, shapes, s, region)
                                       || q == BinaryRequirement(r, ws, shapes, s, region)))
              || (CapturesGraphs(regions, env, scope) && q == CaptureRequirement(r, ws, shapes))
  {
    var kept := Filter(regions, (region: CompileRegion) => scope.AllowsArtifactScope(region.name));
    var pair := (region: CompileRegion) => [GraphRequirement(r, ws, shapes, s, region),
                                            BinaryRequirement(r, ws, shapes, s, region)];
    FlatMapContains(kept, pair, q);
    SortPermutes(FlatMap(kept, pair)
                 + (if CapturesGraphs(regions, env, scope) then [CaptureRequirement(r, ws, shapes)] else []),
                 RequirementLe);
  }

  /** The obligation of this shape and this region. */
  ghost predicate Owes(t: Topology, shapes: seq<ShapeNode>, regions: seq<CompileRegion>, env: OptimizationEnvelope,
                       n: ShapeNode, region: CompileRegion, o: Obligation) {
    && n in shapes && region in regions && n.intent != UncoveredResidual
    && Warms(n, region, env) && o == ObligationOf(t, env, n, region)
  }

  lemma ObligationsAre(t: Topology, shapes: seq<ShapeNode>, regions: seq<CompileRegion>,
                       env: OptimizationEnvelope, scope: BuildScope, o: Obligation)
    ensures o in Obligations(t, shapes, regions, env, scope) <==>
              KeepsObligation(o, scope.readiness) && exists n, region :: Owes(t, shapes, regions, env, n, region, o)
  {
    var perShape := (n: ShapeNode) => ShapeObligations(t, env, n, regions);
    var all := FlatMap(shapes, perShape);
    FlatMapContains(shapes, perShape, o);
    forall n ensures o in ShapeObligations(t, env, n, regions) <==>
                       n.intent != UncoveredResidual
                       && exists region :: region in regions && Warms(n, region, env)
                                           && o == ObligationOf(t, env, n, region)
    {
      ShapeObligationsAre(t, env, n, regions, o);
    }
    SortPermutes(Filter(all, (x: Obligation) => KeepsObligation(x, scope.readiness)), ObligationLe);
    if o in all {
      var n :| n in shapes && o in perShape(n);
      var region :| region in regions && Warms(n, region, env) && o == ObligationOf(t, env, n, region);
      assert Owes(t, shapes, regions, env, n, region, o);
    }
    if n, region :| Owes(t, shapes, regions, env, n, region, o) {
      assert o in perShape(n);
    }
  }

  lemma ShapeObligationsAre(t: Topology, env: OptimizationEnvelope, n: ShapeNode, regions: seq<CompileRegion>,
                            o: Obligation)
    ensures o in ShapeObligations(t, env, n, regions) <==>
              n.intent != UncoveredResidual
              && exists region :: region in regions && Warms(n, region, env) && o == ObligationOf(t, env, n, region)
  {
    FlatMapContains(regions, (region: CompileRegion) =>
                      if Warms(n, region, env) then [ObligationOf(t, env, n, region)] else [], o);
  }

  // ---------------------------------------------------------------------------
  // Shapes

  lemma EnvelopeIs(r: Request, s: Selection, env: OptimizationEnvelope, n: ShapeNode)
    ensures n in ShapeEnvelope(r, s, env) <==>
              || n == CorrectnessNode(r, s.primary.family)
              || (env.performanceWarmup && n == PerformanceNode(r, s.primary.family))
              || (env.performanceWarmup && n in HotNodes(r, s.primary.family))
              || (env.cudaGraphs && n in GraphNodes(r))
              || (r.backendPolicy.jitDisposition == ShapeBounded && n == ResidualNode(r, s.primary.family))
  {
    hide Sort, CorrectnessNode, PerformanceNode, HotNodes, GraphNodes, ResidualNode;
    SortPermutes(EnvelopeNodes(r, s.primary.family, env), ShapeNodeLe);
  }

  lemma HotNodesAre(r: Request, primary: BackendFamily, n: ShapeNode)
    ensures n in HotNodes(r, primary) <==>
              exists p :: p in r.shapePolicy.hotShapes && n == HotShapeNode("hot", p, primary)
  {
    MapContains(r.shapePolicy.hotShapes, (p: ShapePoint) => HotShapeNode("hot", p, primary));
  }

  lemma GraphNodesAre(r: Request, n: ShapeNode)
    ensures n in GraphNodes(r) <==>
              exists p :: p in r.shapePolicy.cudaGraphShapes && n == HotShapeNode("cuda-graph", p, CudaGraphs)
  {
    MapContains(r.shapePolicy.cudaGraphShapes, (p: ShapePoint) => HotShapeNode("cuda-graph", p, CudaGraphs));
  }

  lemma ScopedShapesAre(nodes: seq<ShapeNode>, regions: seq<CompileRegion>, scope: BuildScope, n: ShapeNode)
    ensures n in ScopedShapes(nodes, regions, scope) <==> n in nodes && KeepsShape(n, regions, scope)
  {
    SortPermutes(Filter(nodes, (x: ShapeNode) => KeepsShape(x, regions, scope)), ShapeNodeLe);
  }
}
