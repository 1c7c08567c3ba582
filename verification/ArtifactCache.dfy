/** The content-addressed artifact cache. A directory is a map from paths to documents,
    a storage key is the value it is hashed from, elapsed times are inputs. */
module ArtifactCache {
  import opened Ordering
  import opened Types

  datatype StorageKey =
    | ByRequirement(requirement: Requirement)
    | ByContent(
        equivalence: EquivalenceIdentity, artifactClass: ArtifactClass, backend: BackendFamily,
        acquisition: Acquisition, portability: Portability, rankDisposition: RankDisposition,
        targetAbi: AbiFingerprint, targetShapes: seq<ShapeNode>, targetTopology: Topology)

  datatype ManifestIdentity = ManifestIdentity(primary: BackendFamily, artifactClass: ArtifactClass, scope: string)

  datatype Times = Times(compileMs: nat, transferMs: nat, rebuildMs: nat)

  datatype Document = Document(
    schemaVersion: (u16, u16), storageKey: StorageKey, manifestIdentity: ManifestIdentity, scope: string,
    artifactClass: ArtifactClass, backend: BackendFamily,
    stableIdentity: Option<StableIdentity>, equivalenceIdentity: Option<EquivalenceIdentity>,
    cacheSharing: Option<CacheSharing>, cacheNamespace: string, invalidationDomain: string,
    acquisition: Acquisition, rankDisposition: RankDisposition, engineRoot: string, engineRevision: string,
    anchors: seq<SourceAnchor>, admissibility: seq<Rationale>, times: Times)

  datatype CachePath = CachePath(directory: string, key: StorageKey)

  type Cache = map<CachePath, Document>

  /** Lower-case letters and digits stay, everything else becomes an underscore. */
  function SlugChar(c: char): char {
    if 'A' <= c <= 'Z' then c + ('a' - 'A')
    else if 'a' <= c <= 'z' || '0' <= c <= '9' then c
    else '_'
  }

  function Slug(s: string): string {
    seq(|s|, i requires 0 <= i < |s| => SlugChar(s[i]))
  }

  function PathOf(d: Document): CachePath { CachePath(Slug(d.cacheNamespace), d.storageKey) }

  /** What invalidation compares: namespace, invalidation domain and artifact class. */
  type Triple = (string, string, ArtifactClass)

  function TripleOf(d: Document): Triple { (d.cacheNamespace, d.invalidationDomain, d.artifactClass) }

  predicate SameIdentity(left: Document, right: Document) {
    if left.cacheSharing == Some(ContentAddressed) && right.cacheSharing == Some(ContentAddressed)
       && left.equivalenceIdentity == right.equivalenceIdentity
    then
      && left.schemaVersion == right.schemaVersion
      && left.storageKey == right.storageKey
      && left.artifactClass == right.artifactClass
      && left.backend == right.backend
      && left.cacheNamespace == right.cacheNamespace
      && left.invalidationDomain == right.invalidationDomain
      && left.acquisition == right.acquisition
      && left.rankDisposition == right.rankDisposition
      && left.engineRoot == right.engineRoot
      && left.engineRevision == right.engineRevision
    else
      && left.schemaVersion == right.schemaVersion
      && left.storageKey == right.storageKey
      && left.manifestIdentity == right.manifestIdentity
      && left.scope == right.scope
      && left.artifactClass == right.artifactClass
      && left.backend == right.backend
      && left.acquisition == right.acquisition
      && left.engineRoot == right.engineRoot
      && left.engineRevision == right.engineRevision
      && left.anchors == right.anchors
      && left.admissibility == right.admissibility
  }

  const U64_MAX: nat := 0xFFFF_FFFF_FFFF_FFFF

  function SaturatingAdd(a: nat, b: nat): nat { if a + b > U64_MAX then U64_MAX else a + b }

  function ObservedTimes(acquisition: Acquisition, elapsedMs: nat): Times {
    var ms := if elapsedMs > 1 then elapsedMs else 1;
    if acquisition == VendorPrebuilt || acquisition == UpstreamCacheBundle
    then Times(0, ms, SaturatingAdd(0, ms))
    else Times(ms, 0, SaturatingAdd(ms, 0))
  }

  datatype Disposition = Executed | Reused

  /** What materializing one artifact yields: the document bundled with the build, and the
      times charged to it. */
  datatype Materialized = Materialized(disposition: Disposition, document: Document, times: Times)

  predicate Sibling(p: CachePath, cached: Document, d: Document) {
    && p.directory == Slug(d.cacheNamespace)
    && p.key != d.storageKey
    && TripleOf(cached) == TripleOf(d)
  }

  function Evicted(c: Cache, d: Document): Cache {
    map p | p in c && !Sibling(p, c[p], d) :: c[p]
  }

  /** Is the document already cached in a form this build accepts? */
  predicate Hit(c: Cache, d: Document) {
    PathOf(d) in c && SameIdentity(c[PathOf(d)], d)
  }

  function After(c: Cache, d: Document, elapsedMs: nat): Cache {
    if Hit(c, d) then Evicted(c, d)
    else Evicted(c, d)[PathOf(d) := d.(times := ObservedTimes(d.acquisition, elapsedMs))]
  }

  function Max(a: nat, b: nat): nat { if a >= b then a else b }

  /** Taking over what is cached, with the times it took then. */
  function Reuse(existing: Document, d: Document): Materialized {
    var kept := existing.times;
    Materialized(Reused, d.(times := kept),
                 Times(0, 0, Max(kept.rebuildMs, SaturatingAdd(kept.compileMs, kept.transferMs))))
  }

  function Produce(d: Document, elapsedMs: nat): Materialized {
    var observed := ObservedTimes(d.acquisition, elapsedMs);
    Materialized(Executed, d.(times := observed), observed)
  }

  function ResultOf(c: Cache, d: Document, elapsedMs: nat): Materialized {
    if Hit(c, d) then Reuse(c[PathOf(d)], d) else Produce(d, elapsedMs)
  }

  // ---------------------------------------------------------------------------
  // The cache directory, changed in place

  class CacheRoot {
    var files: Cache

    constructor ()
      ensures files == map[]
    {
      files := map[];
    }

    /** Scans the namespace directory, in whatever order it is listed, and removes the
        entries that the kept key invalidates. */
    method EvictInvalidatedSiblings(d: Document)
      modifies this
      ensures files == Evicted(old(files), d)
    {
      var listing := set p | p in files && p.directory == Slug(d.cacheNamespace);
      ghost var kept := listing;
      while listing != {}
        invariant listing <= kept
        invariant forall p :: p in old(files) && p !in kept ==> p in files && files[p] == old(files)[p]
        invariant forall p :: p in listing ==> p in files && files[p] == old(files)[p]
        invariant forall p :: p in kept - listing ==>
                                && (p in files <==> !Sibling(p, old(files)[p], d))
                                && (p in files ==> files[p] == old(files)[p])
        invariant forall p :: p in files ==> p in old(files)
        decreases listing
      {
        var p :| p in listing;
        listing := listing - {p};
        if p.key == d.storageKey {
          continue;
        }
        var existing := files[p];
        if existing.cacheNamespace == d.cacheNamespace && existing.invalidationDomain == d.invalidationDomain
           && existing.artifactClass == d.artifactClass
        {
          files := files - {p};
        }
      }
    }

    method MaterializeArtifact(d: Document, elapsedMs: nat) returns (r: Materialized)
      modifies this
      ensures files == After(old(files), d, elapsedMs)
      ensures r == ResultOf(old(files), d, elapsedMs)
    {
      var path := PathOf(d);
      var observed := ObservedTimes(d.acquisition, elapsedMs);
      if path in files {
        EvictInvalidatedSiblings(d);
        var existing := files[path];
        if SameIdentity(existing, d) {
          var rebuild := Max(existing.times.rebuildMs,
                             SaturatingAdd(existing.times.compileMs, existing.times.transferMs));
          return Materialized(Reused, d.(times := existing.times), Times(0, 0, rebuild));
        }
      }
      EvictInvalidatedSiblings(d);
      EvictTwice(old(files), d);
      files := files[path := d.(times := observed)];
      return Materialized(Executed, d.(times := observed), observed);
    }
  }

  lemma EvictTwice(c: Cache, d: Document)
    ensures Evicted(Evicted(c, d), d) == Evicted(c, d)
  {
  }

  // ---------------------------------------------------------------------------
  // Every history

  /** Each document lies at its own path, and no two share a triple. */
  ghost predicate Inv(c: Cache) {
    && (forall p :: p in c ==> p == PathOf(c[p]))
    && (forall p, q :: p in c && q in c && TripleOf(c[p]) == TripleOf(c[q]) ==> p == q)
  }

  lemma StepKeepsInv(c: Cache, d: Document, elapsedMs: nat)
    requires Inv(c)
    ensures Inv(After(c, d, elapsedMs))
  {
    var c' := After(c, d, elapsedMs);
    forall p, q | p in c' && q in c' && TripleOf(c'[p]) == TripleOf(c'[q]) ensures p == q {
      if p != PathOf(d) && q != PathOf(d) {
        assert c'[p] == c[p] && c'[q] == c[q];
      }
    }
  }

  /** A step touches its target path and the documents of its own triple, nothing else:
      not even other namespaces whose directory has the same name. */
  lemma StepFrame(c: Cache, d: Document, elapsedMs: nat, p: CachePath)
    requires p != PathOf(d) && (p in c ==> TripleOf(c[p]) != TripleOf(d))
    ensures p in After(c, d, elapsedMs) <==> p in c
    ensures p in c ==> After(c, d, elapsedMs)[p] == c[p]
  {
  }

  datatype Job = Job(document: Document, elapsedMs: nat)

  function RunCache(c: Cache, jobs: seq<Job>): Cache
    decreases jobs
  {
    if jobs == [] then c else RunCache(After(c, jobs[0].document, jobs[0].elapsedMs), jobs[1..])
  }

  function RunResults(c: Cache, jobs: seq<Job>): (r: seq<Materialized>)
    ensures |r| == |jobs|
    decreases jobs
  {
    if jobs == [] then []
    else [ResultOf(c, jobs[0].document, jobs[0].elapsedMs)]
         + RunResults(After(c, jobs[0].document, jobs[0].elapsedMs), jobs[1..])
  }

  lemma {:induction false} RunKeepsInv(c: Cache, jobs: seq<Job>)
    requires Inv(c)
    ensures Inv(RunCache(c, jobs))
    decreases jobs
  {
    if jobs != [] {
      StepKeepsInv(c, jobs[0].document, jobs[0].elapsedMs);
      RunKeepsInv(After(c, jobs[0].document, jobs[0].elapsedMs), jobs[1..]);
    }
  }

  /** Whatever is materialized into an empty cache, in whatever order and by however many
      plans: at most one document per namespace, invalidation domain and class, each in
      its namespace's directory under its own key. */
  lemma EveryHistoryKeepsInv(jobs: seq<Job>)
    ensures Inv(RunCache(map[], jobs))
  {
    RunKeepsInv(map[], jobs);
  }

  // ---------------------------------------------------------------------------
  // Transparency

  function Untimed(d: Document): Document { d.(times := Times(0, 0, 0)) }

  /** Whatever the cache holds, the bundled documents are those the plan asks for: only
      times and dispositions can differ between two caches. */
  lemma {:induction false} RunIsTransparent(c: Cache, jobs: seq<Job>, i: nat)
    requires i < |jobs|
    ensures Untimed(RunResults(c, jobs)[i].document) == Untimed(jobs[i].document)
    decreases jobs
  {
    if i > 0 {
      RunIsTransparent(After(c, jobs[0].document, jobs[0].elapsedMs), jobs[1..], i - 1);
      assert jobs[1..][i - 1] == jobs[i];
    }
  }

  // ---------------------------------------------------------------------------
  // Cold and warm runs

  function DocumentPath(j: Job): CachePath { PathOf(j.document) }
  function DocumentTriple(j: Job): Triple { TripleOf(j.document) }

  ghost predicate Independent(jobs: seq<Job>) {
    DistinctBy(jobs, DocumentPath) && DistinctBy(jobs, DocumentTriple)
  }

  /** The document is cached, accepted, and filed under its own triple. */
  ghost predicate Settled(c: Cache, d: Document) {
    Hit(c, d) && TripleOf(c[PathOf(d)]) == TripleOf(d)
  }

  /** Where a target path is occupied, the document there has the target's triple. */
  ghost predicate Coherent(c: Cache, jobs: seq<Job>) {
    forall j :: j in jobs && DocumentPath(j) in c ==> TripleOf(c[DocumentPath(j)]) == DocumentTriple(j)
  }

  lemma StepSettles(c: Cache, d: Document, elapsedMs: nat)
    requires PathOf(d) in c ==> TripleOf(c[PathOf(d)]) == TripleOf(d)
    ensures Settled(After(c, d, elapsedMs), d)
  {
  }

  lemma StepKeepsSettled(c: Cache, d: Document, elapsedMs: nat, other: Document)
    requires Settled(c, other) && PathOf(other) != PathOf(d) && TripleOf(other) != TripleOf(d)
    ensures Settled(After(c, d, elapsedMs), other)
  {
  }

  lemma StepKeepsCoherent(c: Cache, jobs: seq<Job>)
    requires jobs != [] && Independent(jobs) && Coherent(c, jobs)
    ensures Coherent(After(c, jobs[0].document, jobs[0].elapsedMs), jobs[1..])
    ensures Independent(jobs[1..])
  {
    var c' := After(c, jobs[0].document, jobs[0].elapsedMs);
    forall j | j in jobs[1..] && DocumentPath(j) in c' ensures TripleOf(c'[DocumentPath(j)]) == DocumentTriple(j) {
      var i :| 0 <= i < |jobs[1..]| && jobs[1..][i] == j;
      assert jobs[i + 1] == j;
      assert DocumentPath(jobs[0]) != DocumentPath(jobs[i + 1]);
      assert j in jobs;
    }
  }

  lemma {:induction false} RunKeepsSettled(c: Cache, jobs: seq<Job>, other: Document)
    requires Settled(c, other)
    requires forall j :: j in jobs ==> DocumentPath(j) != PathOf(other) && DocumentTriple(j) != TripleOf(other)
    ensures Settled(RunCache(c, jobs), other)
    decreases jobs
  {
    if jobs != [] {
      assert jobs[0] in jobs;
      StepKeepsSettled(c, jobs[0].document, jobs[0].elapsedMs, other);
      RunKeepsSettled(After(c, jobs[0].document, jobs[0].elapsedMs), jobs[1..], other);
    }
  }

  /** After a run of independent jobs every one of them is settled. */
  lemma {:induction false} RunSettles(c: Cache, jobs: seq<Job>)
    requires Independent(jobs) && Coherent(c, jobs)
    ensures forall j :: j in jobs ==> Settled(RunCache(c, jobs), j.document)
    decreases jobs
  {
    if jobs != [] {
      var first, rest := jobs[0], jobs[1..];
      var c' := After(c, first.document, first.elapsedMs);
      assert first in jobs;
      StepSettles(c, first.document, first.elapsedMs);
      StepKeepsCoherent(c, jobs);
      RunSettles(c', rest);
      assert jobs == [first] + rest;
      forall j | j in rest
        ensures DocumentPath(j) != PathOf(first.document) && DocumentTriple(j) != TripleOf(first.document)
      {
        var i :| 0 <= i < |rest| && rest[i] == j;
        assert jobs[i + 1] == j;
        assert DocumentPath(jobs[0]) != DocumentPath(jobs[i + 1])
               && DocumentTriple(jobs[0]) != DocumentTriple(jobs[i + 1]);
      }
      RunKeepsSettled(c', rest, first.document);
    }
  }

  lemma SettledStepIsQuiet(c: Cache, d: Document, elapsedMs: nat)
    requires Inv(c) && Settled(c, d)
    ensures After(c, d, elapsedMs) == c && ResultOf(c, d, elapsedMs).disposition == Reused
  {
  }

  /** A run over settled documents reuses all of them and leaves the cache as it is. */
  lemma {:induction false} SettledRunIsQuiet(c: Cache, jobs: seq<Job>)
    requires Inv(c) && forall j :: j in jobs ==> Settled(c, j.document)
    ensures RunCache(c, jobs) == c
    ensures forall i :: 0 <= i < |jobs| ==> RunResults(c, jobs)[i].disposition == Reused
    decreases jobs
  {
    if jobs != [] {
      assert jobs[0] in jobs;
      SettledStepIsQuiet(c, jobs[0].document, jobs[0].elapsedMs);
      SettledRunIsQuiet(c, jobs[1..]);
    }
  }

  /** Warm: repeating a run on the cache it left, with any timings and in any order, reuses
      every artifact and changes nothing. */
  lemma WarmRunReuses(c: Cache, jobs: seq<Job>, again: seq<Job>)
    requires Inv(c) && Independent(jobs) && Coherent(c, jobs)
    requires forall j :: j in again ==> exists k :: k in jobs && k.document == j.document
    ensures RunCache(RunCache(c, jobs), again) == RunCache(c, jobs)
    ensures forall i :: 0 <= i < |again| ==> RunResults(RunCache(c, jobs), again)[i].disposition == Reused
  {
    RunKeepsInv(c, jobs);
    RunSettles(c, jobs);
    SettledRunIsQuiet(RunCache(c, jobs), again);
  }

  /** Cold: where no target path is occupied, independent jobs are all executed. */
  lemma {:induction false} ColdRunExecutes(c: Cache, jobs: seq<Job>)
    requires Independent(jobs) && forall j :: j in jobs ==> DocumentPath(j) !in c
    ensures forall i :: 0 <= i < |jobs| ==> RunResults(c, jobs)[i].disposition == Executed
    decreases jobs
  {
    if jobs != [] {
      assert jobs[0] in jobs;
      var c' := After(c, jobs[0].document, jobs[0].elapsedMs);
      forall j | j in jobs[1..] ensures DocumentPath(j) !in c' {
        var i :| 0 <= i < |jobs[1..]| && jobs[1..][i] == j;
        assert jobs[i + 1] == j;
        assert DocumentPath(jobs[0]) != DocumentPath(jobs[i + 1]);
        assert j in jobs;
      }
      StepKeepsCoherent(c, jobs);
      ColdRunExecutes(c', jobs[1..]);
    }
  }
}
