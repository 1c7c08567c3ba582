/** The request the application makes on its own, on any host. */
module Application {
  import opened Types
  import opened Scope
  import opened Decimal
  import opened Accelerator
  import opened Planner
  import opened PlannerFacts
  import opened Resolution
  import opened RequestNormalization
  import opened Acceptance
  import opened Feasibility
  import opened Adapter
  import opened Cases
  import opened ServingBuild

  /** The request for a host, with the engine's revision. */
  function DefaultRequest(host: Host, revision: string): Request {
    var contract := ContractOf(host);
    Request(
      "meta-llama/Llama-3.1-8B-Instruct", "main", "vendored", revision,
      Environment(
        Linux, host.vendor, host.gpuArches, host.cudaVersion, host.driverVersion, host.pythonAbi, host.libcAbi),
      Topology(contract.tensorParallelism, 1, 1), KvLayoutPolicy(StandardPaged, StandardMode, 50),
      BackendPolicy(
        contract.families, PreferPrebuiltThenAot, Forbidden, 0,
        GuaranteeTarget(ShapeBoundedAot, FailClosed), GuaranteeTarget(WarmupBounded, FailClosed)),
      ShapePolicy(
        ShapeRange(1, 8, 1, 4096), ShapeRange(1, 4, 1, 2048),
        [ShapePoint(1, 128, Performance), ShapePoint(4, 2048, Performance)], [ShapePoint(1, 128, CudaGraph)]),
      CachePolicy("prod", false), WarmupPolicy(6, true), O2,
      [ConfigLayer("env", 0, [ConfigEntry("VLLM_USE_V1", "1")]),
       ConfigLayer("project", 1, [ConfigEntry("tensor_parallel_size", NatText(contract.tensorParallelism))])])
  }

  lemma DefaultIsAffordable(host: Host, revision: string)
    ensures Affordable(DefaultRequest(host, revision))
  {
    hide ContractOf, NatText;
  }

  lemma FamiliesAre(arches: seq<string>, prebuilt: bool)
    ensures var families := CudaFamilies(arches, prebuilt);
            && Triton in families && (FlashInfer in families <==> prebuilt)
            && (CudaGraphs in families <==> AnyArch(arches, SupportsGraphs))
            && (AotInductor in families <==> AnyArch(arches, SupportsTma))
  {
    hide AnyArch;
  }

  /** It is a serving build exactly on Nvidia hosts that have FlashInfer prebuilt and some
      architecture the parser recognizes. */
  lemma DefaultIsServingExactly(host: Host, revision: string)
    ensures Serving(host, DefaultRequest(host, revision)) <==>
              && host.vendor == Nvidia && host.flashinferPrebuilt
              && exists a :: a in host.gpuArches && ParseNvidiaClass(a).Some?
  {
    hide Affordable, NatText, ParseNvidiaClass, CudaFamilies;
    DefaultIsAffordable(host, revision);
    FamiliesAre(host.gpuArches, host.flashinferPrebuilt);
    if a :| a in host.gpuArches && ParseNvidiaClass(a).Some? {
      assert Supported(a, SupportsGraphs);
    }
  }

  lemma DefaultIsCanonical(host: Host, revision: string)
    ensures var r := CanonicalBody(DefaultRequest(host, revision));
            && Affordable(r) && r.environment.vendor == host.vendor && r.backendPolicy.packaging != PrebuiltOnly
            && (host.vendor != UnknownVendor ==> Triton in r.backendPolicy.preferredFamilies)
  {
    hide CanonicalBody, Affordable, CudaFamilies, NatText;
    var raw := DefaultRequest(host, revision);
    CanonicalKeeps(raw, Triton);
    FamiliesAre(host.gpuArches, host.flashinferPrebuilt);
    DefaultIsAffordable(host, revision);
    CanonicalStaysAffordable(raw);
  }

  /** It is accepted on every host with a known accelerator, and on no other. */
  lemma DefaultIsAcceptedExactly(host: Host, revision: string, ids: Digests)
    ensures SurveyHolds(AdapterSurvey)
    ensures Resolve(host, DefaultRequest(host, revision), AdapterSurvey, Unscoped, ids).Success? <==>
              host.vendor != UnknownVendor
  {
    hide SurveyHolds, PlanFor, CanonicalBody, Acceptable, CompileRegions, MadeFrom, Affordable, DefaultRequest,
         Narrowed, Selected, CapabilityWitnesses;
    AdapterSurveyHolds();
    var raw := DefaultRequest(host, revision);
    var r := CanonicalBody(raw);
    DefaultIsCanonical(host, revision);
    if host.vendor != UnknownVendor {
      RegionsAreFive(Prefill);
      TritonRequestIsPlanned(host, r, AdapterSurvey, ids, Prefill);
      var p := PlanFor(host, r, AdapterSurvey, Unscoped, ids).value;
      PlanIsMade(host, r, AdapterSurvey, Unscoped, ids);
      MadeSelection(host, r, AdapterSurvey, Unscoped, ids, p);
      AffordableIsAcceptable(r, p.selection, p.regions);
      AcceptedExactly(host, raw, AdapterSurvey, Unscoped, ids, p);
    } else {
      UnknownIsUnplanned(host, r, ids);
    }
  }

  lemma UnknownIsUnplanned(host: Host, r: Request, ids: Digests)
    requires r.environment.vendor == UnknownVendor
    ensures PlanFor(host, r, AdapterSurvey, Unscoped, ids).Failure?
  {
  }
}
