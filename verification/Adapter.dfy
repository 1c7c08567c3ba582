/** The survey the vLLM adapter reports: five compile regions, their cache surfaces, and the
    four places where the engine may still compile at run time. */
module Adapter {
  import opened Collections
  import opened Types
  import opened Planner
  import opened Resolution

  const TransformerBlocks := SurveyRegion(
    "transformer_block_body", "repeated_transformer_block_body", Primary, true, [],
    "repeated_transformer_block_pattern",
    [Correctness, Performance], GpuArchitectureFamilyPortable, Shared, false, "compile-cache", "transformer_block_body",
    ContentAddressed, "gpu_architecture_family", "cross_rank_and_cross_process", [], [])

  const Decode := SurveyRegion(
    DECODE, "decode_micrograph", Fixed(CudaGraphs), true, [], "decode_micrograph",
    [Correctness, Performance, CudaGraph],
    TopologyScoped, RankLocal, true, "cuda-graph-cache", DECODE, NamespaceLocal, "exact_runtime_topology", "rank_local",
    [], [])

  const Prefill := SurveyRegion(
    "prefill_attention", "prefill_micrograph", Primary, true, [], "prefill_micrograph", [Correctness, Performance],
    GpuArchitectureFamilyPortable, Shared, false, "compile-cache", "prefill_attention", ContentAddressed,
    "gpu_architecture_family", "cross_rank_and_cross_process", [], [])

  const KvUpdate := SurveyRegion(
    "kv_cache_update", "attention_kv_boundary", Primary, true, [], "attention_kv_update_boundary",
    [Correctness, BackendSpecialization], GpuArchitectureFamilyPortable, Shared, true, "flashinfer-autotune-cache",
    "kv_cache_update", ContentAddressed, "gpu_architecture_family", "shared_topology", [], [])

  const Experts := SurveyRegion(
    "moe_specialty_path", "moe_specialty_path", Fixed(AotInductor), true, [], "moe_specialty_path",
    [BackendSpecialization], TopologyScoped, Shared, true, "compile-cache", "moe_specialty_path", ContentAddressed,
    "exact_runtime_topology", "shared_topology", [], [])

  const Regions := [TransformerBlocks, Decode, Prefill, KvUpdate, Experts]

  const CacheSurfaces := [
    CacheSurface("compile-cache", ["transformer_block_body", "prefill_attention", "moe_specialty_path"]),
    CacheSurface("flashinfer-autotune-cache", ["kv_cache_update"]),
    CacheSurface("cuda-graph-cache", [DECODE])]

  const DroppedGuards := JitSurface(
    "guard_dropped_dynamic_shapes", "torch.compile", ["CompilationConfig"],
    ["transformer_block_body", "prefill_attention", DECODE], ["transformer_block_body", "prefill_attention", DECODE],
    ["transformer_block_body", "prefill_attention", DECODE], false, false, "guard policy as an input")

  const JitSurfaces := [
    JitSurface("flashinfer_tactic_autotune", "flashinfer", ["--enable-flashinfer-autotune"],
               ["kv_cache_update", "prefill_attention"], ["kv_cache_update"], ["kv_cache_update"], true, true,
               "autotune cache as an artifact"),
    JitSurface("triton_attention_warmup_gap", "triton", ["--cudagraph-capture-sizes"], [DECODE, "prefill_attention"],
               [DECODE, "prefill_attention"], [DECODE, "prefill_attention"], true, false, "warmups per region"),
    JitSurface("inductor_custom_op_fallback", "inductor", ["CompilationConfig"], ["moe_specialty_path"],
               ["moe_specialty_path"], ["moe_specialty_path"], true, false, "fallback coverage as evidence"),
    DroppedGuards]

  const AdapterSurvey := Survey("engine", "revision", Regions, CacheSurfaces, JitSurfaces, [])

  lemma NamesDiffer(i: nat, j: nat)
    requires i < j < |Regions|
    ensures Regions[i].name != Regions[j].name && Regions[i].invalidationDomain != Regions[j].invalidationDomain
  {
    assert |Regions[0].name| == 22 && |Regions[1].name| == 16 && |Regions[2].name| == 17 && |Regions[3].name| == 15
           && |Regions[4].name| == 18;
    assert |Regions[0].invalidationDomain| == 34 && |Regions[1].invalidationDomain| == 17
           && |Regions[2].invalidationDomain| == 18 && |Regions[3].invalidationDomain| == 28
           && |Regions[4].invalidationDomain| == 18;
    assert Regions[2].invalidationDomain[0] == 'p' && Regions[4].invalidationDomain[0] == 'm';
  }

  /** What the planner takes for granted of a survey holds of the adapter's. */
  lemma AdapterSurveyHolds()
    ensures SurveyHolds(AdapterSurvey)
  {
    forall i, j | 0 <= i < j < |Regions| ensures Regions[i].name != Regions[j].name
      ensures Regions[i].invalidationDomain != Regions[j].invalidationDomain
    {
      NamesDiffer(i, j);
    }
    forall region | region in Regions ensures region.name != [] {
      assert region == Regions[0] || region == Regions[1] || region == Regions[2] || region == Regions[3]
             || region == Regions[4];
    }
    forall region | region in Regions && region.name == DECODE ensures region.binding == Fixed(CudaGraphs) {
      var i :| 0 <= i < |Regions| && Regions[i] == region;
      assert i == 1;
    }
    assert JitSurfaces[3] == DroppedGuards;
  }

  lemma RegionsAreFive(region: SurveyRegion)
    ensures region in Regions <==> region in {TransformerBlocks, Decode, Prefill, KvUpdate, Experts}
  {
    assert Regions[0] == TransformerBlocks && Regions[1] == Decode && Regions[2] == Prefill && Regions[3] == KvUpdate
           && Regions[4] == Experts;
  }

  /** Of the five regions only decode attention is rank-local. */
  lemma OneRankLocal(local: SurveyRegion -> bool)
    requires forall region :: local(region) <==> region.rankDisposition == RankLocal
    ensures Filter(Regions, local) == [Decode]
  {
    assert Regions[..4][..3] == Regions[..3] && Regions[..3][..2] == Regions[..2] && Regions[..2][..1] == Regions[..1];
    assert Filter(Regions[..1], local) == [];
    assert Filter(Regions[..2], local) == [Decode];
    assert Filter(Regions[..3], local) == [Decode];
    assert Filter(Regions[..4], local) == [Decode];
  }
}
