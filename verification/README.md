# sock: a verified model

sock turns a serving request into a build plan, lowers the plan to a dependency graph cut
into waves, runs the waves against a content-addressed artifact cache, and packs the result
as a bundle that can be replayed. This project models that pipeline in Dafny, together with
the allocator and the key/value-cache arithmetic of its CUDA shim, and proves what the
pipeline as a whole keeps.

`dafny verify dfyconfig.toml` checks the whole project.

## How the model is built

- A hash, digest or storage key is the value it is taken of. Two keys are equal exactly when
  the hashed values are.
- The cache directory and the bundle directory are maps from paths to documents, held by
  objects whose methods change them in place.
- The adapter survey is a parameter. `Resolution.SurveyHolds` states what the code relies on:
  region names and invalidation domains are distinct, names and trigger inputs are not empty,
  `decode_attention` is bound to CUDA graphs, and some `torch.compile` surface always applies.
  `Adapter.AdapterSurvey` is the survey the adapter reports, and it meets these conditions.
- Times are inputs. A parallel batch is a state machine over its workers' file operations, and
  executing a plan is a relation: it holds of every outcome that some interleaving gives.
- A host is what detection reports of it; the architecture names are read by a model of the parser.
- Python floats are exact reals, and bytes are counted in half bytes where a precision needs it.

The modules follow the program:

| module | models |
|---|---|
| `CanonicalJson`, `RequestNormalization` | canonical documents and request identity |
| `Accelerator` | architecture names, runtime contracts of hosts |
| `Planner`, `Plan`, `Resolution`, `Scope` | selection, regions, shapes, requirements, obligations, evidence, the plan record, the validator's checks, scopes |
| `Validator` | the validator's accumulating loops |
| `PlannerFacts`, `PlannerValidation`, `WarmupCoverage`, `NodeNames`, `Scoping`, `PlannedOutcome` | what every planner-made plan satisfies |
| `WarmupSteps`, `Acceptance`, `Feasibility` | when a request is accepted |
| `Adapter`, `Cases`, `ServingBuild`, `Application` | the adapter's survey, requests under it, the application's own request |
| `RunCases`, `AdapterRaces` | executions under the adapter's survey, and which of its plans can fail |
| `Lowering`, `Scheduler`, `PlannedRun`, `Readiness` | graph, waves, the scheduling loop, runs of planned graphs |
| `ArtifactCache`, `CacheRace` | the cache, sequentially and under interleaving |
| `Execution`, `ExecutionRaces` | the executor and all its outcomes |
| `PlannedCache`, `PlannedExecution`, `PlannedRaces`, `PlannedRetries` | accepted plans on shared caches, exactly when they can fail, and what becomes of failures |
| `Replay`, `PlannedReplay`, `Bundle`, `Pipeline` | replay proof, bundle, request to verified bundle |
| `Capabilities`, `MemoryPool`, `KvCache` | the CUDA shim |
| `Ordering`, `Collections`, `Decimal`, `Types` | sorting, iterator adaptors, decimal text, shared records |

## Main results

- **Every planned run finishes.** For any topology, requirements and obligations the planner's
  waves run to the end, each node as often as it occurs and after its dependencies
  (`PlannedRunCompletes`), although the executor never sorts the graph. For an arbitrary wave,
  the loop succeeds exactly when no non-empty set of members blocks itself
  (`WaveCompletesIffUnblocked`).
- **Readiness is cumulative** at every reachable state, although the code only looks at the
  deferred warmups (`ReadinessIsCumulative`).
- **The validator is mostly silent on the planner.** Twenty-two of its thirty-one issue codes
  are unreachable (`PlannerIssues`); incomplete warmup occurs exactly for one family of requests
  at O1 (`WarmupIncompleteExactly`), and shared node names exactly for two shapes of one size
  whose warmups meet in a region (`DuplicateNamesExactly`). Acceptance is characterized by nine
  conditions on the request and the planned regions (`AcceptedExactly`), the warmup steps among
  them in closed form (`StepsExactly`). Under the adapter's survey every modest request that
  allows Triton is accepted (`AdapterBuildsAreAccepted`), and the application's own request is
  accepted exactly on hosts with a known accelerator (`DefaultIsAcceptedExactly`).
- **Executions of accepted plans, exactly.** On any cache that a history of accepted plans
  leaves, every execution of an accepted plan, in every interleaving of its parallel batches,
  gives the report and the cache of the sequential run, or fails because a cache entry vanished
  under a worker (`AcceptedExecutesExactly`). A failing execution exists exactly when, before it
  starts, the cache holds an outdated document of an artifact that shares its directory with
  another artifact of the same, parallel wave (`FailsExactly`). Batches of other waves run in
  turn and cannot fail (`PlannedBatchFailsIffRace`). A first execution on an empty cache cannot
  fail and builds everything (`ColdExecution`); after any history, repeating an execution that
  succeeded cannot fail, reuses everything and leaves the cache alone (`RepeatedExecution`).
- **Failed executions.** A failing execution leaves every artifact of its plan done, or as it
  was but for evictions that were due (`ExecutionLeaves`). It makes the documents over which
  workers can fail strictly fewer (`FailureShrinks`), so that a plan fails at most as often as
  there are such documents, however often it is tried, and cannot fail after that
  (`FailuresAreBounded`). Once an attempt succeeds, the cache is, times aside, what the plan run
  in turn on the first cache gives (`RetriesLeaveNoTrace`).
- **Which plans can fail at all.** Of the plans accepted unscoped under the adapter's survey,
  some history makes exactly those fail that select CUDA graphs beside a primary backend whose
  artifacts are fetched (`CanFailExactly`). For the application's own request that means exactly
  the Nvidia hosts with FlashInfer prebuilt and a recognized architecture
  (`DefaultCanFailExactly`).
- **The cache** holds at most one document per namespace, invalidation domain and class after
  every sequential history (`EveryHistoryKeepsInv`), in every reachable state of every parallel
  batch, failed ones included (`BatchKeepsInv`), and so after every history of accepted plans
  (`HistoryIsFiled`). Workers that all finish end as the sequential run does
  (`BatchIsConfluent`), and every interleaving comes to an end (`StepAdvances`, `Halts`).
- **Replay proofs.** After any successful execution of an accepted plan, on any cache and in any
  interleaving, the warmup, autotune and cache flags are set (`ReplayFlagsHold`), the closure is
  full exactly when every declared warmup scope has an obligation (`ClosureIsFullExactly`), the
  topology flag is set exactly when nothing is shared or there is a single rank
  (`TopologyFlagExactly`), and any two executions give the same proof, dispositions aside
  (`ReplayIsTransparent`).
- **Bundles** round-trip exactly when their documents agree with the plan (`RoundTrip`), and
  whatever is accepted is sound (`AcceptedIsSound`).
- **Canonical forms** are complete: sorted JSON (`SortedFormCanonical`) and request identity
  (`IdentityCharacterized`).
- **Half-byte key/value layouts can cost more than the regular layout.** The excess is computed
  exactly and its maximum of two bytes is attained (`TmhHalfByteExcess`,
  `TmhHalfByteExcessTight`).

## Where an expected property fails

The code is modelled as it is. Each of these comes with a concrete input on which the property
fails and with the exact condition under which it holds.

- Executing an accepted plan can fail on a vanishing cache entry: the eviction scan tests that
  an entry exists and opens it afterwards, and another worker may remove it in between. The
  application's own request, on a host with FlashInfer prebuilt and a recognized architecture,
  can fail so when it is built again after a driver upgrade, because its two decode artifacts
  are compiled in parallel in one directory (`DriverUpgradeCanFail`, `FailsExactly`).
- An architecture name with an underscore, such as "sm_90", is never recognized: the parser strips
  "sm" before it tries "sm_", so that its second attempt is dead. The answer is the one that trying
  "sm_" first gives exactly for the names that are no underscored spelling of a known number
  (`UnderscoredHopper`, `UnderscoredExactly`).
- The topology flag of a replay proof is not set for shared artifacts on several ranks, because
  the recorded rank count is always one (`TwoRanksDenyReuse`, `TopologyFlagExactly`).
- Two hot shapes of one size on different planes give a plan two nodes of one name, and the plan
  is rejected; with either shape alone it is accepted (`ClashingRequestIsRejected`,
  `OnePointIsAccepted`, `DuplicateNamesExactly`).
- A plan with a hot shape on the CUDA-graph plane is rejected at O1 for a warmup that the planner
  itself leaves out (`GraphRequestIsRejected`, `WarmupIncompleteExactly`). Under the adapter's
  survey this is never the only reason: such a plan is also over its rank-local budget
  (`SkippedIsOverBudget`).
- A TMH layout in half-byte precision may need up to two bytes more than the regular one,
  because four groups are rounded up separately (`TmhHalfByteExcessTight`, `TmhHalfByteExcess`).

## Model

| member | source | states |
|---|---|---|
| `CanonicalJson.SortJson` | core/src/canonical.rs:62-80 | sorting a document yields its canonical form |
| `CanonicalJson.SortMembers` | core/src/canonical.rs:68-76 | the key loop over an object yields its members, sorted by name with sorted values |
| `CanonicalJson.SortedFormCanonical` | core/src/canonical.rs:62-80 | two documents denote the same value, objects read as unordered collections at every depth, exactly when their sorted forms are identical |
| `CanonicalJson.SortPreservesValue` | core/src/canonical.rs:37-80 | sorting changes neither the value nor an already sorted document |
| `RequestNormalization.Normalize` | core/src/request.rs:161-187 | the in-place sorting and deduplication yields the canonical body, which is the identity |
| `RequestNormalization.IdentityCharacterized` | core/src/request.rs:47-112 | two requests get the same identity exactly when they agree up to order and repetition of arches, families, shapes and entries, up to layer order between different keys, and up to the runtime mode of a standard layout |
| `RequestNormalization.NormalizeIdempotent` | core/src/request.rs:161-187 | normalizing twice is normalizing once |
| `RequestNormalization.DistinctKeysIgnoreOrder` | core/src/request.rs:107-112 | with distinct layer keys, any reordering of layers is immaterial |
| `Accelerator.RecognizedExactly` | core/src/accelerator.rs:122-136 | the names that are read, exactly: "sm" and a number of known class, perhaps with a plus sign and zeros, and with white space around |
| `Accelerator.UnderscoredExactly` | core/src/accelerator.rs:123-127 | a name with "sm_" is never read; the answer is the one that trying "sm_" first gives exactly for names that are no underscored spelling of a known number |
| `Accelerator.PlainNames` | core/src/accelerator.rs:122-136 | "sm" and a plain number is read as the class of the number, "sm_" and a number is not read |
| `Accelerator.UnderscoredHopper` | core/src/accelerator.rs:123-131 | "sm90" is read as Hopper and "sm_90" is not read |
| `Accelerator.DetectedIsRead` | app/src/lib.rs:388-397 | whatever a device reports, the name detection gives it is read as the class of the digits it reported, and not at all without digits |
| `Accelerator.CapabilityIsRead` | app/src/lib.rs:388-397 | a device of capability major.minor is read as the class of ten times the one and the other |
| `Accelerator.PreferFamilies` | core/src/accelerator.rs:175-192 | inserting, appending, sorting twice and removing repetitions gives the families in order of preference |
| `Planner.SelectBackends` | engine/src/planner.rs:491-540 | the loop over preferred families selects the viable ones in order, or reports why none is |
| `Planner.ExpandSelectedBackends` | engine/src/planner.rs:625-679 | the loop over regions adds missing backends, with its two errors |
| `Planner.WarmupObligations` | engine/src/planner.rs:1137-1197 | the nested loops yield one obligation per shape and region it warms, filtered by readiness and in the derived order |
| `NodeNames.SortKeysTell` | core/src/model.rs:296-308 | the fields obligations are sorted by decide between any two obligations of a plan |
| `PlannerFacts.RegionsAre` | engine/src/planner.rs:542-623 | a region is planned exactly when a surveyed candidate region passes every scope filter and its backend is selected |
| `PlannerFacts.ExpansionIsIdentity` | engine/src/planner.rs:625-679 | backend expansion never adds anything |
| `PlannerFacts.SelectionJustified` | engine/src/planner.rs:681-753 | every selected backend has an admissible proof whose witnesses are all present |
| `PlannerFacts.RequirementsAre` | engine/src/planner.rs:995-1135 | exactly which artifacts are required |
| `PlannerFacts.ObligationsAre` | engine/src/planner.rs:1137-1197 | exactly which warmups are owed |
| `PlannerFacts.EnvelopeIs` | engine/src/planner.rs:943-993 | exactly which shapes the envelope holds |
| `PlannerFacts.ScopedShapesAre` | engine/src/planner.rs:1898-1919 | a shape is kept exactly when a planned region reaches its plane and the readiness asks for it |
| `PlannerFacts.PlanIsMade` | engine/src/planner.rs:84-230 | how the parts of every planned record are made from each other |
| `PlannerValidation.GatesAvailable` | engine/src/planner.rs:259-408 | a witness that some backend needs says available whenever it is recorded |
| `PlannerValidation.RequirementFailClosed` | engine/src/planner.rs:883-941 | every required artifact fails closed |
| `PlannerValidation.EvidenceNeverEmpty` | engine/src/planner.rs:1252-1330 | every plan carries run-time compilation evidence |
| `PlannerValidation.EvidenceIsClean` | engine/src/planner.rs:1969-2067 | evidence is bounded, uncontradicted and refers only to planned regions, artifacts and warmups |
| `PlannerValidation.TraceIsSound` | engine/src/planner.rs:1564-1744 | every recorded pass fulfils its contract |
| `PlannerValidation.DecisionIsSound` | engine/src/planner.rs:755-881 | every decision entry matches the selection and backs its reachability |
| `PlannerValidation.ResidualNeedsPolicy` | engine/src/planner.rs:943-993 | residual shapes come only from the shape-bounded policy |
| `PlannerValidation.PlannerIssues` | core/src/model.rs:434-1000 | on every plan handed to the validator the issue list is that of nine checks; the other twenty-two issue codes never occur |
| `PlannerValidation.PlannerRaisesOnlyExpected` | engine/src/planner.rs:232-257 | a rejection names at least one issue and only the nine expected ones |
| `WarmupCoverage.ShapeNameInjective` | engine/src/planner.rs:1882-1896 | shape names determine batch and sequence |
| `WarmupCoverage.WarmupIncompleteExactly` | core/src/model.rs:545-577 | incomplete warmup is reported exactly at O1, without early-serve or correctness readiness, for a hot shape on a reached CUDA-graph plane that no same-sized hot shape covers |
| `NodeNames.RegionNamesDistinct` | engine/src/planner.rs:542-623 | planned regions have distinct names |
| `NodeNames.RequirementsDistinct` | engine/src/planner.rs:995-1135 | no class and scope pair is required twice |
| `NodeNames.OnlyWarmupsShare` | engine/src/planner.rs:1332-1489 | graph nodes share a name exactly when two obligations share a label |
| `NodeNames.DuplicateNamesExactly` | core/src/model.rs:636-663 | duplicate node names are reported exactly when two listed shapes of one size, on different planes, warm a common region and deferred warmups are asked for |
| `Acceptance.ResidualCount` | engine/src/planner.rs:943-993 | one residual shape is counted exactly for the shape-bounded policy on a reached performance plane outside correctness builds, else none |
| `Acceptance.ArtifactCounts` | engine/src/planner.rs:995-1135 | the numbers of artifacts and of rank-local artifacts, from the allowed regions and graph capture |
| `WarmupSteps.StepsExactly` | engine/src/planner.rs:1137-1197 | the warmup steps of a plan are three per region for a reached correctness plane, two per performance region, and one per region for each shape point that warms it, as far as the level and the readiness ask for them |
| `Acceptance.AcceptedExactly` | engine/src/planner.rs:84-257 | a planned request is accepted exactly when nine conditions hold of the request and the planned regions |
| `Feasibility.TritonRequestIsPlanned` | engine/src/planner.rs:491-540 | on a known platform, without a prebuilt-only policy, a request allowing Triton is planned whenever a candidate region follows the primary backend |
| `Feasibility.ModestBuildsAreAccepted` | engine/src/planner.rs:84-257 | requests without optimizations, run-time compilation or capture demands that allow Triton are accepted whatever the host, under any survey of at most five regions with at most one rank-local and one that follows the primary backend |
| `Adapter.AdapterSurveyHolds` | engine/src/vllm_adapter.rs:232-399 | the five surveyed regions and the run-time compilation surfaces meet the conditions the planner relies on |
| `Cases.AdapterBuildsAreAccepted` | engine/src/vllm_adapter.rs:232-399 | under the adapter's survey every modest request that allows Triton is accepted on every known platform |
| `Cases.SampleIsAccepted` | engine/src/planner.rs:84-257 | such requests exist |
| `ServingBuild.ServingIsAccepted` | app/src/lib.rs:29-133 | on an Nvidia host with FlashInfer prebuilt and graph capture, serving builds at O2 are accepted, and their two decode artifacts are alone in a parallel wave |
| `Application.DefaultIsServingExactly` | app/src/lib.rs:29-133 | the application's own request is such a build exactly on Nvidia hosts with FlashInfer prebuilt and a recognized architecture |
| `Application.DefaultIsAcceptedExactly` | app/src/lib.rs:29-133 | it is accepted on every host with a known accelerator and on no other |
| `Cases.GraphRequestIsRejected` | core/src/model.rs:545-577 | a request for CUDA graphs at O1 whose plan the resolver rejects for incomplete warmup and for the rank-local budget |
| `Cases.SkippedIsOverBudget` | core/src/model.rs:763-788 | where every region on the CUDA-graph plane is rank-local, incomplete warmup never comes without an exceeded rank-local budget |
| `Cases.ClashingRequestIsRejected` | core/src/model.rs:636-663 | a request whose plan is rejected for two nodes of one name |
| `Cases.OnePointIsAccepted` | core/src/model.rs:636-663 | with a single hot shape the same request is accepted |
| `Validator.FindUnwarmed` | core/src/model.rs:545-566 | the difference of the shape names and the warmed names, without residual shapes, is empty exactly when no warmup is missing |
| `Validator.SumSteps` | core/src/model.rs:723-727 | the loop sums the warmup steps in 32 bits |
| `Validator.FindDuplicates` | core/src/model.rs:636-648 | the set-based scan finds a name exactly when two nodes share it, and only shared names |
| `Validator.ValidatePlan` | core/src/model.rs:434-1000 | the accumulating checks yield the specified report |
| `Scoping.UnscopedPlans` | engine/src/planner.rs:84-120 | whatever can be planned in a scope can be planned without |
| `Scoping.ScopedRegions` | engine/src/planner.rs:542-623 | the scoped plan has the same backends and exactly the allowed regions of the unscoped one |
| `Scoping.ScopedArtifacts` | engine/src/planner.rs:1016-1135 | its class and scope pairs are exactly the unscoped ones with an allowed scope and a kept region |
| `Scoping.ScopedObligations` | engine/src/planner.rs:1137-1197 | its obligations are exactly the unscoped ones whose region is kept, that the readiness keeps and whose plane is reached |
| `PlannedOutcome.AcceptedIsWellPlanned` | engine/src/planner.rs:84-257 | an accepted outcome has unique node names, artifacts told apart by class and scope, surveyed regions and backed evidence |
| `Lowering.MaterializationGraph` | engine/src/planner.rs:1332-1489 | the pushed nodes, their waves and the early-serve frontier are those specified |
| `Lowering.BuildWaves` | engine/src/planner.rs:2152-2208 | bucketing nodes and walking the buckets in key order yields one wave per wave number and queue, in order |
| `Lowering.NodesAre` | engine/src/planner.rs:1332-1489 | exactly which nodes the graph holds |
| `Lowering.DependenciesAre` | engine/src/planner.rs:2282-2304 | a warmup depends on exactly the deliveries of the artifacts in its scopes |
| `Scheduler.ScheduleConserves` | engine/src/executor.rs:488-574 | a wave runs and leaves exactly its nodes, none twice |
| `Scheduler.ScheduleOrders` | engine/src/executor.rs:492-515 | every node runs after its dependencies |
| `Scheduler.WaveCompletesIffUnblocked` | engine/src/executor.rs:488-574 | the loop completes a wave exactly when no non-empty subset is blocked, and otherwise leaves the largest blocked set, each member with an uncompleted dependency |
| `PlannedRun.PlannerGraphStratified` | engine/src/planner.rs:1332-1489 | dependencies lie in earlier waves, or in the same wave without dependencies of their own |
| `PlannedRun.PlannedRunCompletes` | engine/src/executor.rs:160-190 | for every topology, requirements and obligations the run ends without a missing dependency and runs every node after its dependencies |
| `PlannedRun.PlannedRunOnce` | engine/src/executor.rs:488-574 | every name runs once exactly when names are unique |
| `PlannedRun.ArtifactNodesAreRequired` | engine/src/executor.rs:590-597 | materializing nodes are exactly those named after a requirement, so the lookup never fails |
| `Readiness.DoneNodesAreSupported` | engine/src/executor.rs:492-572 | at every reachable state a completed node has completed dependencies |
| `Readiness.WarmupRunsOnDeliveredArtifacts` | engine/src/planner.rs:1391-1457 | a warmup has run only if its artifacts are materialized and, where shared, broadcast to every rank it covers |
| `Readiness.ReadinessIsCumulative` | engine/src/executor.rs:790-854 | reported performance readiness implies that blocking warmups and early-serve nodes are complete |
| `ArtifactCache.CacheRoot.constructor` | engine/src/executor.rs:117-124 | a cache starts empty |
| `ArtifactCache.CacheRoot.EvictInvalidatedSiblings` | engine/src/executor.rs:1201-1232 | the directory scan removes exactly the same-triple entries under other keys, in whatever order it lists them |
| `ArtifactCache.CacheRoot.MaterializeArtifact` | engine/src/executor.rs:300-471 | the cache and the record after reusing or rebuilding one artifact |
| `ArtifactCache.StepFrame` | engine/src/executor.rs:1201-1232 | a step touches only its target path and same-triple documents, even where directories share a name |
| `ArtifactCache.EveryHistoryKeepsInv` | engine/src/executor.rs:319-430 | after any sequence of materializations there is at most one document per namespace, domain and class, each at its own path |
| `ArtifactCache.RunIsTransparent` | engine/src/executor.rs:300-471 | whatever is cached, the bundled documents are those asked for, times aside |
| `ArtifactCache.WarmRunReuses` | engine/src/executor.rs:352-430 | repeating independent jobs in any order reuses all and changes nothing |
| `ArtifactCache.ColdRunExecutes` | engine/src/executor.rs:352-430 | independent jobs on unoccupied paths are all executed |
| `CacheRace.RunWorkers` | engine/src/executor.rs:531-559 | the workers of a parallel batch take steps in any order until all have halted; what happens is an interleaving of their file operations |
| `CacheRace.StepAdvances` | engine/src/executor.rs:1201-1232 | every step of a worker ends a phase or shortens a scan, so that no interleaving goes on for ever |
| `CacheRace.Halts` | engine/src/executor.rs:531-559 | from every state the workers can go on until all have halted |
| `CacheRace.BatchIsConfluent` | engine/src/executor.rs:531-559 | every interleaving in which all workers finish ends in the cache and results of the sequential order |
| `CacheRace.BatchKeepsInv` | engine/src/executor.rs:1201-1232 | in every reachable state, also after a failure, there is at most one document per namespace, domain and class, each at its own path |
| `CacheRace.FailureEvicts` | engine/src/executor.rs:1212-1229 | behind every failed worker there is an outdated document of another worker's artifact, in the directory they share, that is gone |
| `CacheRace.LeftIsRecovered` | engine/src/executor.rs:300-471 | running a job on what an earlier, perhaps failed try left of it leads, times aside, to where it leads without that try |
| `CacheRace.RebuildCanFail` | engine/src/executor.rs:1213-1223 | rebuilding an outdated artifact beside another one in the same directory can fail |
| `CacheRace.BatchFailsIffRace` | engine/src/executor.rs:1201-1232 | some interleaving fails exactly when two workers share a directory in which one has something to evict |
| `Execution.ExecuteNode` | engine/src/executor.rs:578-700 | one node: the unknown-artifact error, or the record and the cache step |
| `Execution.ExecuteInTurn` | engine/src/executor.rs:515-530 | a sequential batch runs its nodes in turn up to the first without a requirement |
| `Execution.ExecuteAtOnce` | engine/src/executor.rs:531-559 | a parallel batch runs its workers in some interleaving and reports the first failure in the order of its nodes |
| `Execution.CollectExactly` | engine/src/executor.rs:555-558 | joining succeeds exactly when every node has its requirement and every worker is done |
| `Execution.ExecuteBatch` | engine/src/executor.rs:514-560 | the batch runs as its wave's discipline asks |
| `Execution.ExecuteWave` | engine/src/executor.rs:474-576 | the loop runs the batches of the wave's schedule in turn, up to the first failure or a missing dependency |
| `Execution.Execute` | engine/src/executor.rs:107-298 | the outcome, report and cache are those of one execution of all scheduled batches |
| `ExecutionRaces.OutcomeMeans` | engine/src/executor.rs:107-190 | success means that nothing stays pending and every node resolves; each error means what it says, and only a parallel batch gives an I/O error |
| `ExecutionRaces.CompletedAnswers` | engine/src/executor.rs:300-471 | every successful execution, on any cache and in any interleaving, answers every node with the document it asks for |
| `PlannedCache.AcceptedPlanExecutes` | engine/src/executor.rs:107-190 | the executor's loops take every node of an accepted plan exactly once, get stuck on none and find every requirement |
| `PlannedCache.DocumentIsFiled` | engine/src/executor.rs:1129-1183 | under one survey the storage key decides namespace, domain and class |
| `PlannedCache.TripleTellsApart` | engine/src/executor.rs:1156-1183 | two artifacts of a plan never share namespace, domain and class |
| `PlannedCache.PlannedColdRun` | app/src/main.rs:1470-1473 | an accepted plan builds every artifact on an empty cache |
| `PlannedCache.PlannedWarmRun` | app/src/main.rs:1470-1473 | on a cache filed by keys, running an accepted plan twice in turn reuses everything the second time and leaves the cache alone |
| `PlannedExecution.AcceptedExecutesExactly` | engine/src/executor.rs:107-298 | every execution of an accepted plan gives the sequential report and cache or fails on a vanished entry, and a failing one exists exactly when a parallel batch races |
| `PlannedExecution.ExecutionKeepsCache` | engine/src/executor.rs:107-298 | an execution, failed or not, leaves a cache in which keys decide the filing and no two documents share namespace, domain and class |
| `PlannedExecution.HistoryIsFiled` | engine/src/executor.rs:300-471 | so does every history of executions of accepted plans, failed ones included |
| `PlannedExecution.QuietRunExists` | engine/src/executor.rs:107-298 | an accepted plan that does not race can be executed |
| `PlannedExecution.ColdExecution` | app/src/main.rs:1470-1473 | on an empty cache no execution fails and every artifact is built |
| `PlannedExecution.RepeatedExecution` | app/src/main.rs:1470-1473 | after any history, repeating a successful execution cannot fail, reuses everything and leaves the cache alone |
| `PlannedExecution.StepMode` | engine/src/executor.rs:1065-1072 | a batch is parallel exactly when its wave has the parallel-per-rank discipline |
| `PlannedExecution.PlannedBatchIsConfluent` | engine/src/executor.rs:531-559 | every batch of every accepted run, after any history, is confluent |
| `PlannedExecution.PlannedBatchFailsIffRace` | engine/src/executor.rs:514-560 | such a batch can fail exactly when its wave is parallel and two of its workers share a directory in which one has something to evict; a sequential batch never fails |
| `PlannedRaces.FailsExactly` | engine/src/executor.rs:1201-1232 | an execution that fails exists exactly when the cache holds an outdated document of an artifact that shares its directory with another artifact of its wave, and that wave is parallel |
| `RunCases.ServingRebuildCanFail` | engine/src/executor.rs:1213-1223 | two serving builds with different drivers are accepted; the first cannot fail, the second, on the cache the first leaves, can |
| `RunCases.DriverUpgradeCanFail` | app/src/lib.rs:29-133 | this happens to the application's own request after a driver upgrade, on any Nvidia host with FlashInfer prebuilt and a recognized architecture |
| `AdapterRaces.RescaledIsAccepted` | engine/src/planner.rs:84-257 | a request that is accepted is accepted for another number of replicas, with the same backends |
| `AdapterRaces.CanFailExactly` | engine/src/executor.rs:1201-1232 | for every request accepted unscoped: some history makes its executions fail exactly when CUDA graphs are selected beside a primary backend whose artifacts are fetched |
| `AdapterRaces.DefaultCanFailExactly` | app/src/lib.rs:29-133 | for the application's own request this means exactly the Nvidia hosts with FlashInfer prebuilt and a recognized architecture |
| `PlannedRetries.ExecutionLeaves` | engine/src/executor.rs:531-559 | an execution, failed or not, leaves every artifact of its plan done, or as it was but for evictions that were due |
| `PlannedRetries.EndangeredExactly` | engine/src/executor.rs:1212-1229 | an execution can fail exactly where there are outdated documents to evict from a directory that another artifact of the same, parallel wave reads |
| `PlannedRetries.FailureShrinks` | engine/src/executor.rs:1212-1229 | every failing execution makes these documents strictly fewer, and no execution makes them more |
| `PlannedRetries.FailuresAreBounded` | engine/src/executor.rs:1212-1229 | over any number of attempts a plan fails at most once for each of these documents, and after that many failures it succeeds |
| `PlannedRetries.RetriesLeaveNoTrace` | engine/src/executor.rs:531-559 | when an attempt succeeds after any number of others, the cache holds, times aside, what running the plan in turn on the first cache gives |
| `PlannedReplay.ReportRecords` | engine/src/executor.rs:160-221 | the report has one record per requirement, with the document the plan asks for |
| `PlannedReplay.KeyTellsApart` | engine/src/executor.rs:1129-1154 | two artifacts of a plan never share a storage key |
| `PlannedReplay.ReplayFlagsHold` | core/src/replay.rs:137-165 | warmup, autotune and cache flags are set after every successful execution of an accepted plan |
| `PlannedReplay.BoundedExactly` | engine/src/executor.rs:864-953 | backed evidence stays bounded exactly when its declared warmup scopes were observed |
| `PlannedReplay.ClosureIsFullExactly` | engine/src/executor.rs:996-1014 | the closure is full, and the compile flag set, exactly when every declared warmup scope has an obligation |
| `PlannedReplay.CorrectnessBuildsCloseFully` | engine/src/planner.rs:1252-1330 | unless only early serving is asked for, a plan reaching the correctness plane closes fully |
| `PlannedReplay.TopologyFlagExactly` | core/src/replay.rs:166-174 | the topology flag is set exactly when no artifact is shared or there is one rank |
| `RunCases.TwoRanksDenyReuse` | core/src/replay.rs:166-174 | an accepted request on two ranks whose flag no execution sets |
| `PlannedReplay.ReplayIsTransparent` | core/src/replay.rs:54-203 | two successful executions of a plan, on any two caches and in any interleavings, give the same replay proof, dispositions aside |
| `PlannedReplay.ExecuteAccepted` | engine/src/executor.rs:107-298 | executing an accepted plan gives the sequential report and cache, or fails on a vanished entry, which only a race allows; the cache stays filed either way |
| `Bundle.BundleDirectory.WriteTo` | core/src/bundle.rs:88-166 | the directory and the metadata after writing, other files untouched |
| `Bundle.BundleDirectory.LoadFrom` | core/src/bundle.rs:168-292 | metadata, digests, documents, identities and recomputed verdicts are checked in this order, digests in the order of file names |
| `Bundle.CheckedExactly` | core/src/bundle.rs:205-266 | the checks pass exactly for documents that carry the plan's identity and the recomputed verdicts |
| `Bundle.RoundTrip` | core/src/bundle.rs:88-292 | loading after writing succeeds exactly for bundles that agree with their plan, and returns them with sorted artifacts |
| `Bundle.AcceptedIsSound` | core/src/bundle.rs:168-292 | from any directory, an accepted bundle has matching identities, recomputed verdicts and matching digests |
| `Bundle.TamperIsRejected` | core/src/bundle.rs:171-176 | changing a recorded file is blamed on that file |
| `Bundle.RemovalIsRejected` | core/src/bundle.rs:171-173 | removing a recorded file is an I/O error on that file |
| `Pipeline.AcceptedIsValidated` | engine/src/planner.rs:236-257 | an accepted outcome carries the validator's report on its plan |
| `Pipeline.BundleAgrees` | app/src/lib.rs:167-197 | a bundle made from a validated outcome agrees with its plan |
| `Pipeline.MaterializeBundle` | app/src/main.rs:1407-1438 | only the execution can fail, and then no bundle is written; else the bundle made is given back |
| `Capabilities.RoundUp` | cuda-shim/sock_cuda_shim/capabilities.py:83-86 | the least multiple of a positive alignment that is not below the value, else an error |
| `MemoryPool.CudaMemoryPool.Create` | cuda-shim/sock_cuda_shim/memory.py:28-33 | which pools can be made |
| `MemoryPool.CudaMemoryPool.Reserve` | cuda-shim/sock_cuda_shim/memory.py:42-53 | a chunk-aligned block at the high-water mark, or an error that changes nothing |
| `MemoryPool.CudaMemoryPool.Unmap` | cuda-shim/sock_cuda_shim/memory.py:55-61 | the first equal allocation becomes a hole, or an error that changes nothing |
| `MemoryPool.PoolInvariant` | cuda-shim/sock_cuda_shim/memory.py:28-61 | after any operations, allocations tile the range below the high-water mark in positive multiples of the chunk, mapped bytes stay within the usable ones, and mapped bytes plus holes are the mark |
| `MemoryPool.AddressesNeverReused` | cuda-shim/sock_cuda_shim/memory.py:42-61 | whatever a later run reserves lies wholly above every range reserved before, mapped or not |
| `KvCache.PolicyPressure` | cuda-shim/sock_cuda_shim/kv_cache.py:110-136 | hot and old pages add up to the total, for every non-negative token count |
| `KvCache.SplitMonotone` | cuda-shim/sock_cuda_shim/kv_cache.py:110-118 | hot and old pages both grow with the total |
| `KvCache.TmhNeverExceedsWholeByte` | cuda-shim/sock_cuda_shim/kv_cache.py:110-146 | with policy precisions within the spec's, TMH bytes never exceed regular bytes for whole-byte specs |
| `KvCache.TmhHalfByteExcess` | cuda-shim/sock_cuda_shim/kv_cache.py:110-146 | for half-byte specs, the exact difference, at most two bytes, and when it is an excess |
| `KvCache.TmhHalfByteExcessTight` | cuda-shim/sock_cuda_shim/kv_cache.py:139-146 | the two bytes are attained |
| `KvCache.RequiredBytesMonotone` | cuda-shim/sock_cuda_shim/diagnostics.py:103-121 | required bytes grow with the token count, with or without a policy |
| `KvCache.AcceptanceDownwardClosed` | cuda-shim/sock_cuda_shim/diagnostics.py:94-121 | if a request fits its budget, every shorter one does |

## Left out

- Command line, rendering and process spawning are not modelled, and of host detection only the naming of an architecture is.
- `Adapter.AdapterSurvey` carries what the planner and the executor read; the boundary, criteria, anchor and mitigation texts of the survey are left out, and so are the entry-point and integration tables.
- File system and parse failures other than vanished cache entries and missing or ill-typed bundle files are not modelled, nor are atomic renames and byte sizes.
- `CacheRace.BatchIsConfluent`: assumes that every worker finishes; when one can fail is stated by `BatchFailsIffRace`.
- `Execution.Execute`: does not promise one document per namespace, domain and class for builds whose artifacts share them; accepted plans never do, and for them `ExecutionKeepsCache` states it. Receipts, byte counts and per-rank duplicate counts are not in the report, and node records keep the order in which they ran.
- `Pipeline.MaterializeBundle`: starts after the check that a scoped subset can be isolated from the engine.
- `Validator.ValidatePlan`: issues are codes without their formatted messages.
- `Validator.SumSteps`: takes the 32-bit sum of warmup steps to wrap, as release builds do.
- `PlannedReplay.ReplayIsTransparent`: does not cover the preferred fan-out strategy of a record, which depends on measured times.
- `PlannedReplay.TopologyFlagExactly`: takes the 16-bit product of ranks to wrap, as release builds do.
- `KvCache.PolicyPressure`: does not model floating-point rounding.
- The topology context of a run-time compilation surface is a flag instead of text, and formatted reasons and rationales are values.
- Estimates, consumed and produced identities, coverage witnesses and optimization explanations are left out of the records.
- Sorted lists other than warmup obligations resolve ties by their modelled keys only.
- The other validators of the CUDA shim, governance catalogues, benchmarks and scripts are straight-line checks and tables on which none of these results depend.
