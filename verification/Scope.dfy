/** Scoped build requests: which regions, artifacts and warmups a partial build keeps. */
module Scope {
  import opened Types

  datatype BuildReadiness = EarlyServeBuild | CorrectnessBuild | PerformanceBuild

  datatype BuildScope = BuildScope(
    regionNames: set<string>, artifactScopes: set<string>, families: set<BackendFamily>,
    topologyScopes: set<RankDisposition>, cacheNamespaces: set<string>, warmupScopes: set<string>,
    readiness: Option<BuildReadiness>)
  {
    predicate IsUnscoped() { this == BuildScope({}, {}, {}, {}, {}, {}, None) }

    predicate AllowsRegion(name: string) {
      (regionNames == {} && artifactScopes == {}) || name in regionNames || name in artifactScopes
    }

    predicate AllowsArtifactScope(scope: string) {
      (regionNames == {} && artifactScopes == {}) || scope in artifactScopes || scope in regionNames
    }

    predicate AllowsFamily(family: BackendFamily) { families == {} || family in families }

    predicate AllowsRankDisposition(d: RankDisposition) { topologyScopes == {} || d in topologyScopes }

    predicate AllowsCacheNamespace(name: string) { cacheNamespaces == {} || name in cacheNamespaces }

    predicate AllowsWarmupScope(scope: string) { warmupScopes == {} || scope in warmupScopes }
  }

  /** The default scope: everything. */
  const Unscoped := BuildScope({}, {}, {}, {}, {}, {}, None)
}
