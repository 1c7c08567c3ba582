/** Request to verified bundle: resolve, execute, write, load. */
module Pipeline {
  import opened Types
  import opened Scope
  import opened Planner
  import opened Plan
  import opened Resolution
  import opened ArtifactCache
  import opened CacheRace
  import opened Execution
  import opened Replay
  import opened Bundle
  import opened PlannedOutcome
  import opened PlannedCache
  import opened PlannedExecution
  import opened PlannedReplay

  /** The content of the documents that only carry the plan's identity. */
  datatype Notes = Notes(diagnostics: string, trace: string, explain: string, integration: string, socPlan: string,
                         entrypoints: string)

  function ReplayBundle(o: Outcome, report: Report, notes: Notes): Bundle {
    var id := o.plan.identity;
    Bundle(
      o.plan, Closure(id, o.closure), o.verification, Annex(id, notes.diagnostics), Annex(id, notes.trace),
      Annex(id, notes.explain), DecisionOf(o.plan), report, ReplayProofOf(o.plan, report),
      Annex(id, notes.integration), Annex(id, notes.socPlan), Annex(id, notes.entrypoints))
  }

  /** A bundle made from a validated outcome and a report on its plan agrees with the plan. */
  lemma BundleAgrees(o: Outcome, report: Report, notes: Notes)
    requires o.verification == Validate(o.plan) && report.planIdentity == o.plan.identity
    ensures Agrees(ReplayBundle(o, report, notes))
  {
  }

  lemma AcceptedIsValidated(host: Host, raw: Request, survey: Survey, scope: BuildScope, ids: Digests)
    requires Resolve(host, raw, survey, scope, ids).Success?
    ensures var o := Resolve(host, raw, survey, scope, ids).value;
            o.verification == Validate(o.plan) && o.survey == survey
  {
    var p := AcceptedPlan(host, raw, survey, scope, ids);
  }

  /** Writing a bundle that agrees with its plan and loading it again cannot fail. */
  method WriteAndLoad(b: Bundle, directory: BundleDirectory, explain: string, script: string) returns (loaded: Bundle)
    requires Agrees(b)
    modifies directory
    ensures loaded == WithSortedManifest(b)
    ensures directory.files == Written(old(directory.files), b, explain, script)
    ensures LoadsAs(directory.files, Success(loaded))
  {
    ghost var before := directory.files;
    var metadata := directory.WriteTo(b, explain, script);
    var answer := directory.LoadFrom();
    RoundTrip(before, b, explain, script, answer);
    loaded := answer.value;
  }

  /** The bundle made of one successful execution, written to the directory and read back. */
  ghost predicate Bundles(run: Run, c: Cache, c': Cache, report: Report, notes: Notes, bundle: Bundle) {
    && WellPlanned(run.outcome) && CanExecute(run, c, c', Success(report))
    && bundle == ReplayBundle(run.outcome, report, notes)
  }

  /** Executes an accepted plan, and writes and loads its bundle. Only the execution can fail,
      and only as `ExecuteAccepted` says; then the bundle directory is not written. */
  method MaterializeBundle(o: Outcome, clock: Handle -> nat, root: CacheRoot, directory: BundleDirectory,
                           notes: Notes, explain: string, script: string)
    returns (r: Result<Bundle, ExecutionError>, ghost made: Bundle, ghost report: Report)
    requires WellPlanned(o) && o.verification == Validate(o.plan)
    modifies root, directory
    ensures r.Failure? ==> directory.files == old(directory.files)
    ensures r.Failure? ==> CanExecute(Run(o, clock), old(root.files), root.files, Failure(r.error))
    ensures r.Success? ==>
              && Bundles(Run(o, clock), old(root.files), root.files, report, notes, made)
              && r.value == WithSortedManifest(made)
              && directory.files == Written(old(directory.files), made, explain, script)
    ensures Filed(Filing(o.survey), old(root.files)) ==>
              && (r.Success? ==> report == ReportOn(Run(o, clock), old(root.files)))
              && (r.Success? ==> root.files == RunCache(old(root.files), RunJobs(Run(o, clock))))
              && (r.Failure? ==> r.error == CacheIo && MayFail(Run(o, clock), old(root.files)))
              && Filed(Filing(o.survey), root.files) && (Inv(old(root.files)) ==> Inv(root.files))
  {
    hide WellPlanned, Validate, Agrees, Written, RunJobs, ReplayProofOf, DecisionOf, ReportOn, CanExecute, MayFail,
         Filed, Inv, Reports;
    var executed := ExecuteAccepted(o, clock, root);
    if executed.Failure? {
      made, report := *, *;
      return Failure(executed.error), made, report;
    }
    report := executed.value;
    made := ReplayBundle(o, executed.value, notes);
    BundleAgrees(o, executed.value, notes);
    var loaded := WriteAndLoad(ReplayBundle(o, executed.value, notes), directory, explain, script);
    r := Success(loaded);
  }
}
