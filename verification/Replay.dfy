/** The replay proof: what a plan and the report of its execution testify to. Records that
    the source lists by storage key are maps from that key. */
module Replay {
  import opened Collections
  import opened Types
  import opened Plan
  import opened ArtifactCache
  import opened Execution

  datatype RealizationMode = RebuiltOnly | ReusedOnly | Mixed

  datatype Compatibility = Compatibility(identity: ManifestIdentity, cacheNamespace: string, scope: string,
                                         backend: BackendFamily)
  datatype Produced = Produced(identity: ManifestIdentity, scope: string, artifactClass: ArtifactClass,
                               backend: BackendFamily)
  datatype Realized = Realized(identity: ManifestIdentity, disposition: Disposition, cacheNamespace: string,
                               rankDisposition: RankDisposition)
  datatype Placement = Placement(scope: string, rankDisposition: RankDisposition, rankCount: nat)

  datatype ReplayProof = ReplayProof(
    planIdentity: PlanIdentity, request: Request,
    compileClosure: bool, warmupClosure: bool, autotuneClosure: bool, cacheCompatible: bool, topologyReuse: bool,
    closureArtifacts: seq<ManifestIdentity>, warmupProofs: seq<string>, autotuneProofs: seq<string>,
    compatibility: map<StorageKey, Compatibility>, placements: map<StorageKey, Placement>,
    result: map<StorageKey, Produced>, realization: map<StorageKey, Realized>, mode: RealizationMode)

  function ModeOf(executed: bool, reused: bool): RealizationMode {
    if executed && reused then Mixed else if reused then ReusedOnly else RebuiltOnly
  }

  predicate Has(artifacts: map<StorageKey, ArtifactRecord>, d: Disposition) {
    exists k | k in artifacts :: artifacts[k].result.disposition == d
  }

  predicate WarmupsRan(obligations: seq<Obligation>, nodes: seq<NodeRecord>) {
    forall o | o in obligations :: exists n | n in nodes :: n.name == Warmup(WarmupLabel(o))
  }

  predicate ManifestProduced(manifest: seq<ManifestEntry>, artifacts: map<StorageKey, ArtifactRecord>) {
    forall m | m in manifest :: exists k | k in artifacts :: artifacts[k].result.document.manifestIdentity == m.identity
  }

  /** 16-bit product, wrapping. */
  function ReplicaRanks(t: Topology): nat {
    t.tensorParallelism * t.pipelineParallelism % 0x1_0000 * t.replicas % 0x1_0000
  }

  predicate PlacedAsPlanned(t: Topology, artifacts: map<StorageKey, ArtifactRecord>) {
    forall k | k in artifacts ::
      match artifacts[k].result.document.rankDisposition
      case Shared => artifacts[k].rankCount == ReplicaRanks(t)
      case RankLocal => artifacts[k].rankCount >= 1
  }

  function ProofIds(obligations: seq<Obligation>): seq<string> { Map(obligations, (o: Obligation) => o.proof.proofId) }

  function Tuned(obligations: seq<Obligation>): seq<Obligation> {
    Filter(obligations, (o: Obligation) => o.requiresAutotune)
  }

  function CompatibilityOf(artifacts: map<StorageKey, ArtifactRecord>): map<StorageKey, Compatibility> {
    map k | k in artifacts :: var d := artifacts[k].result.document;
                              Compatibility(d.manifestIdentity, d.cacheNamespace, d.scope, d.backend)
  }

  function PlacementsOf(artifacts: map<StorageKey, ArtifactRecord>): map<StorageKey, Placement> {
    map k | k in artifacts :: var d := artifacts[k].result.document;
                              Placement(d.scope, d.rankDisposition, artifacts[k].rankCount)
  }

  function ProducedBy(artifacts: map<StorageKey, ArtifactRecord>): map<StorageKey, Produced> {
    map k | k in artifacts :: var d := artifacts[k].result.document;
                              Produced(d.manifestIdentity, d.scope, d.artifactClass, d.backend)
  }

  function RealizedBy(artifacts: map<StorageKey, ArtifactRecord>): map<StorageKey, Realized> {
    map k | k in artifacts :: var d := artifacts[k].result.document;
                              Realized(d.manifestIdentity, artifacts[k].result.disposition, d.cacheNamespace,
                                       d.rankDisposition)
  }

  function ReplayProofOf(p: BuildPlan, report: Report): ReplayProof {
    var artifacts := report.artifacts;
    ReplayProof(
      p.identity, p.request,
      report.closure == FullCompileClosure && report.verifyStatus == Passed,
      WarmupsRan(p.obligations, report.nodes), WarmupsRan(Tuned(p.obligations), report.nodes),
      ManifestProduced(p.manifest, artifacts), PlacedAsPlanned(p.request.topology, artifacts),
      Map(p.manifest, (m: ManifestEntry) => m.identity), ProofIds(p.obligations), ProofIds(Tuned(p.obligations)),
      CompatibilityOf(artifacts), PlacementsOf(artifacts), ProducedBy(artifacts), RealizedBy(artifacts),
      ModeOf(Has(artifacts, Executed), Has(artifacts, Reused)))
  }
}
