/** Which planner-made plans leave a shape without a warmup. */
module WarmupCoverage {
  import opened Decimal
  import opened Types
  import opened Scope
  import opened Planner
  import opened Plan
  import opened PlannerFacts
  import opened PlannerValidation
  import opened Resolution
  import Lowering

  // ---------------------------------------------------------------------------
  // Shape names determine their points

  /** Text up to the first mark splits in only one way. */
  lemma {:induction false} SplitUnique(a: string, b: string, c: string, d: string, mark: char)
    requires mark !in a && mark !in c
    requires a + [mark] + b == c + [mark] + d
    ensures a == c && b == d
  {
    assert (a + [mark] + b)[0] == (c + [mark] + d)[0];
    assert a + [mark] + b == a + ([mark] + b) && c + [mark] + d == c + ([mark] + d);
    if a == [] || c == [] {
      assert b == ([mark] + b)[1..] && d == ([mark] + d)[1..];
    } else {
      assert (a + [mark] + b)[1..] == a[1..] + [mark] + b;
      assert (c + [mark] + d)[1..] == c[1..] + [mark] + d;
      SplitUnique(a[1..], b, c[1..], d, mark);
      assert a == [a[0]] + a[1..] && c == [c[0]] + c[1..];
    }
  }

  lemma ShapeNameInjective(prefix: string, p: ShapePoint, q: ShapePoint)
    requires ShapeName(prefix, p) == ShapeName(prefix, q)
    ensures p.batch == q.batch && p.sequence == q.sequence
  {
    var (a, b, c, d) := (NatText(p.batch), NatText(p.sequence), NatText(q.batch), NatText(q.sequence));
    var start := prefix + "-b";
    assert ShapeName(prefix, p)[|start|..] == a + ['-'] + (['s'] + b);
    assert ShapeName(prefix, q)[|start|..] == c + ['-'] + (['s'] + d);
    NatTextReads(p.batch);
    NatTextReads(q.batch);
    SplitUnique(a, ['s'] + b, c, ['s'] + d, '-');
    assert b == (['s'] + b)[1..] && d == (['s'] + d)[1..];
    NatTextInjective(p.batch, q.batch);
    NatTextInjective(p.sequence, q.sequence);
  }

  // ---------------------------------------------------------------------------
  // Coverage by obligations

  ghost predicate Names(obligations: seq<Obligation>, name: string) {
    exists o :: o in obligations && o.nodeName == name
  }

  predicate Warmable(n: ShapeNode, env: OptimizationEnvelope) {
    && n.intent != UncoveredResidual
    && (n.plane == Performance ==> env.performanceWarmup)
    && (n.plane == CudaGraph ==> env.cudaGraphs)
  }

  lemma WarmableIsNamed(t: Topology, shapes: seq<ShapeNode>, regions: seq<CompileRegion>,
                        env: OptimizationEnvelope, scope: BuildScope, n: ShapeNode)
    requires n in shapes && KeepsShape(n, regions, scope) && Warmable(n, env)
    requires scope.readiness != Some(EarlyServeBuild)
    ensures Names(Obligations(t, shapes, regions, env, scope), n.name)
  {
    var region :| region in regions && n.plane in region.planes;
    var o := ObligationOf(t, env, n, region);
    ObligationsAre(t, shapes, regions, env, scope, o);
    assert Owes(t, shapes, regions, env, n, region, o);
  }

  lemma NamedIsWarmable(t: Topology, shapes: seq<ShapeNode>, regions: seq<CompileRegion>,
                        env: OptimizationEnvelope, scope: BuildScope, name: string) returns (n: ShapeNode)
    requires Names(Obligations(t, shapes, regions, env, scope), name)
    ensures n in shapes && n.name == name && Warmable(n, env)
  {
    var o :| o in Obligations(t, shapes, regions, env, scope) && o.nodeName == name;
    ObligationsAre(t, shapes, regions, env, scope, o);
    var region;
    n, region :| Owes(t, shapes, regions, env, n, region, o);
  }

  lemma {:induction false} FirstNamedIs(shapes: seq<ShapeNode>, n: ShapeNode)
    requires n in shapes
    ensures var first := FirstNamed(shapes, n.name);
            first.Some? && first.value in shapes && first.value.name == n.name
  {
    if shapes[0].name != n.name {
      FirstNamedIs(shapes[1..], n);
    }
  }

  // ---------------------------------------------------------------------------
  // The planner's shapes

  ghost predicate IsHot(r: Request, primary: BackendFamily, n: ShapeNode, p: ShapePoint) {
    p in r.shapePolicy.hotShapes && n == HotShapeNode("hot", p, primary)
  }

  /** Only hot shapes carry a hot name, and only they can fail to be warmable. */
  lemma PlannedShape(r: Request, s: Selection, regions: seq<CompileRegion>, scope: BuildScope, n: ShapeNode)
    requires n in ScopedShapes(ShapeEnvelope(r, s, EnvelopeOf(r.level)), regions, scope)
    ensures KeepsShape(n, regions, scope)
    ensures (n.name != [] && n.name[0] == 'h')
            || (n.intent != UncoveredResidual && !Warmable(n, EnvelopeOf(r.level))) ==>
              EnvelopeOf(r.level).performanceWarmup && exists p :: IsHot(r, s.primary.family, n, p)
  {
    var env := EnvelopeOf(r.level);
    ScopedShapesAre(ShapeEnvelope(r, s, env), regions, scope, n);
    EnvelopeIs(r, s, env, n);
    if n in HotNodes(r, s.primary.family) {
      HotNodesAre(r, s.primary.family, n);
      var p :| p in r.shapePolicy.hotShapes && n == HotShapeNode("hot", p, s.primary.family);
      assert IsHot(r, s.primary.family, n, p);
    } else if n in GraphNodes(r) {
      GraphNodesAre(r, n);
    }
  }

  lemma HotIsPlanned(r: Request, s: Selection, regions: seq<CompileRegion>, scope: BuildScope, p: ShapePoint)
    requires p in r.shapePolicy.hotShapes && EnvelopeOf(r.level).performanceWarmup
    requires Reaches(regions, p.plane) && scope.readiness != Some(CorrectnessBuild)
    ensures HotShapeNode("hot", p, s.primary.family) in
              ScopedShapes(ShapeEnvelope(r, s, EnvelopeOf(r.level)), regions, scope)
  {
    var n := HotShapeNode("hot", p, s.primary.family);
    HotNodesAre(r, s.primary.family, n);
    EnvelopeIs(r, s, EnvelopeOf(r.level), n);
    ScopedShapesAre(ShapeEnvelope(r, s, EnvelopeOf(r.level)), regions, scope, n);
  }

  /** What a caller can read off the request: at O1, with neither an early-serve nor a
      correctness build asked for, some hot shape is on the CUDA-graph plane of a kept
      region, and no hot shape of the same size is on another plane a region reaches. */
  ghost predicate SkipsHotShape(r: Request, regions: seq<CompileRegion>, readiness: Option<BuildReadiness>) {
    && r.level == O1
    && readiness != Some(EarlyServeBuild) && readiness != Some(CorrectnessBuild)
    && Reaches(regions, CudaGraph)
    && exists p :: p in r.shapePolicy.hotShapes && Skipped(r, regions, p)
  }

  predicate Skipped(r: Request, regions: seq<CompileRegion>, p: ShapePoint) {
    && p.plane == CudaGraph
    && (forall q | q in r.shapePolicy.hotShapes && q.batch == p.batch && q.sequence == p.sequence ::
          q.plane == CudaGraph || !Reaches(regions, q.plane))
  }

  lemma MissedIsSkipped(r: Request, s: Selection, regions: seq<CompileRegion>, scope: BuildScope,
                        shapes: seq<ShapeNode>, obligations: seq<Obligation>)
    requires shapes == ScopedShapes(ShapeEnvelope(r, s, EnvelopeOf(r.level)), regions, scope)
    requires obligations == Obligations(r.topology, shapes, regions, EnvelopeOf(r.level), scope)
    requires scope.readiness != Some(EarlyServeBuild)
    requires MissesWarmup(shapes, obligations)
    ensures SkipsHotShape(r, regions, scope.readiness)
  {
    hide ScopedShapes, ShapeEnvelope, Obligations;
    var env := EnvelopeOf(r.level);
    var n :| n in shapes && (forall o | o in obligations :: o.nodeName != n.name)
             && FirstNamed(shapes, n.name).Some? && FirstNamed(shapes, n.name).value.intent != UncoveredResidual;
    FirstNamedIs(shapes, n);
    var first := FirstNamed(shapes, n.name).value;
    PlannedShape(r, s, regions, scope, first);
    if Warmable(first, env) {
      WarmableIsNamed(r.topology, shapes, regions, env, scope, first);
      assert false;
    }
    var p :| IsHot(r, s.primary.family, first, p);
    forall q | q in r.shapePolicy.hotShapes && q.batch == p.batch && q.sequence == p.sequence
      ensures q.plane == CudaGraph || !Reaches(regions, q.plane)
    {
      if q.plane != CudaGraph && Reaches(regions, q.plane) {
        var other := HotShapeNode("hot", q, s.primary.family);
        HotIsPlanned(r, s, regions, scope, q);
        PlannedShape(r, s, regions, scope, other);
        WarmableIsNamed(r.topology, shapes, regions, env, scope, other);
        assert false;
      }
    }
    assert Skipped(r, regions, p);
  }

  lemma SkippedIsMissed(r: Request, s: Selection, regions: seq<CompileRegion>, scope: BuildScope,
                        shapes: seq<ShapeNode>, obligations: seq<Obligation>)
    requires shapes == ScopedShapes(ShapeEnvelope(r, s, EnvelopeOf(r.level)), regions, scope)
    requires obligations == Obligations(r.topology, shapes, regions, EnvelopeOf(r.level), scope)
    requires SkipsHotShape(r, regions, scope.readiness)
    ensures MissesWarmup(shapes, obligations)
  {
    var env := EnvelopeOf(r.level);
    var p :| p in r.shapePolicy.hotShapes && Skipped(r, regions, p);
    var n := HotShapeNode("hot", p, s.primary.family);
    HotIsPlanned(r, s, regions, scope, p);
    if Names(obligations, n.name) {
      var other := NamedIsWarmable(r.topology, shapes, regions, env, scope, n.name);
      PlannedShape(r, s, regions, scope, other);
      var q :| IsHot(r, s.primary.family, other, q);
      ShapeNameInjective("hot", p, q);
      assert false;
    }
    FirstNamedIs(shapes, n);
    var first := FirstNamed(shapes, n.name).value;
    PlannedShape(r, s, regions, scope, first);
    assert forall o | o in obligations :: o.nodeName != n.name;
  }

  // ---------------------------------------------------------------------------
  // The validator on planner-made plans

  lemma MissesExactly(r: Request, scope: BuildScope, p: BuildPlan)
    requires p.readiness == scope.readiness
    requires p.shapes == ScopedShapes(ShapeEnvelope(r, p.selection, EnvelopeOf(r.level)), p.regions, scope)
    requires p.obligations == Obligations(r.topology, p.shapes, p.regions, EnvelopeOf(r.level), scope)
    ensures MissesWarmup(p.shapes, p.obligations) && p.readiness != Some(EarlyServeBuild) <==>
              SkipsHotShape(r, p.regions, scope.readiness)
  {
    if p.readiness != Some(EarlyServeBuild) {
      if MissesWarmup(p.shapes, p.obligations) {
        MissedIsSkipped(r, p.selection, p.regions, scope, p.shapes, p.obligations);
      }
      if SkipsHotShape(r, p.regions, scope.readiness) {
        SkippedIsMissed(r, p.selection, p.regions, scope, p.shapes, p.obligations);
      }
    }
  }

  lemma ReportsMissed(p: BuildPlan)
    ensures WarmupIncomplete in Predicted(p) <==>
              MissesWarmup(p.shapes, p.obligations) && p.readiness != Some(EarlyServeBuild)
  {
    hide MissesWarmup, Unmet, DuplicateNames, CountResidual, Wrapped, TotalSteps, CountRankLocal;
  }

  lemma MadeWarmup(host: Host, r: Request, survey: Survey, scope: BuildScope, ids: Digests, p: BuildPlan)
    requires SurveyHolds(survey) && MadeFrom(host, r, survey, scope, ids, p)
    ensures WarmupIncomplete in IssuesOf(p) <==> SkipsHotShape(r, p.regions, scope.readiness)
  {
    hide Obligations, Evidence, Lowering.GraphOf, CapabilityWitnesses, RewriteTrace, Registry, Selected,
         ArtifactRequirements, CompileRegions, ManifestOf, ScopedShapes;
    MadeIssues(host, r, survey, scope, ids, p);
    ReportsMissed(p);
    MissesExactly(r, scope, p);
  }

  /** Incomplete warmup is reported exactly when the request skips a hot shape; in
      particular never at O0, O2 or O3. */
  lemma WarmupIncompleteExactly(host: Host, r: Request, survey: Survey, scope: BuildScope, ids: Digests)
    requires SurveyHolds(survey) && PlanFor(host, r, survey, scope, ids).Success?
    ensures var p := PlanFor(host, r, survey, scope, ids).value;
            WarmupIncomplete in IssuesOf(p) <==> SkipsHotShape(r, p.regions, scope.readiness)
  {
    hide PlanFor, MadeFrom, IssuesOf, SkipsHotShape;
    PlanIsMade(host, r, survey, scope, ids);
    MadeWarmup(host, r, survey, scope, ids, PlanFor(host, r, survey, scope, ids).value);
  }
}
