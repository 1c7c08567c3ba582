/** Replay bundles: a directory of documents with their digests. A digest is the content
    it is taken of, and reading back what was written yields the same document. */
module Bundle {
  import opened Ordering
  import opened Types
  import opened Planner
  import opened Plan
  import opened Execution
  import opened Replay

  datatype FileName =
    | BuildPlanJson | ArtifactManifestJson | VerificationJson | DiagnosticsJson | RewriteTraceJson
    | ExplainJson | DecisionJson | ReportJson | ProofJson | IntegrationJson | SocPlanJson | EntrypointsJson
    | ExplainText | ReplayScript | MetadataJson | OtherFile(name: string)

  datatype Closure = Closure(planIdentity: PlanIdentity, artifacts: seq<ManifestEntry>)

  datatype DecisionDocument = DecisionDocument(planIdentity: PlanIdentity, entries: seq<DecisionEntry>)

  /** A document that only carries the plan's identity beside its own content. */
  datatype Annex = Annex(planIdentity: PlanIdentity, body: string)

  datatype Bundle = Bundle(
    plan: BuildPlan, closure: Closure, verification: VerificationReport, diagnostics: Annex, trace: Annex,
    explain: Annex, decision: DecisionDocument, report: Report, proof: ReplayProof,
    integration: Annex, socPlan: Annex, entrypoints: Annex)

  datatype Metadata = Metadata(planIdentity: PlanIdentity, digests: map<FileName, Content>)

  datatype Content =
    | PlanFile(plan: BuildPlan) | ManifestFile(manifest: Closure) | VerificationFile(verification: VerificationReport)
    | AnnexFile(annex: Annex) | DecisionFile(decision: DecisionDocument) | ReportFile(report: Report)
    | ProofFile(proof: ReplayProof) | TextFile(text: string) | MetadataFile(metadata: Metadata)

  type Directory = map<FileName, Content>

  datatype BundleError =
    | Io(file: FileName) | Json(file: FileName) | DigestMismatch(file: FileName) | IdentityMismatch(file: FileName)
    | VerificationMismatch | BackendDecisionMismatch | ReplayProofMismatch

  function SortedClosure(c: Closure): Closure { c.(artifacts := Sort(c.artifacts, ManifestLe)) }

  function WithSortedManifest(b: Bundle): Bundle { b.(closure := SortedClosure(b.closure)) }

  function DecisionOf(p: BuildPlan): DecisionDocument { DecisionDocument(p.identity, p.decision) }

  /** The twelve documents of a bundle, in the order they are written. */
  function Documents(b: Bundle): seq<(FileName, Content)> {
    [(BuildPlanJson, PlanFile(b.plan)), (ArtifactManifestJson, ManifestFile(b.closure)),
     (VerificationJson, VerificationFile(b.verification)), (DiagnosticsJson, AnnexFile(b.diagnostics)),
     (RewriteTraceJson, AnnexFile(b.trace)), (ExplainJson, AnnexFile(b.explain)),
     (DecisionJson, DecisionFile(b.decision)), (ReportJson, ReportFile(b.report)), (ProofJson, ProofFile(b.proof)),
     (IntegrationJson, AnnexFile(b.integration)), (SocPlanJson, AnnexFile(b.socPlan)),
     (EntrypointsJson, AnnexFile(b.entrypoints))]
  }

  /** Files written one after the other. */
  function Gathered(documents: seq<(FileName, Content)>): Directory {
    if documents == [] then map[]
    else Gathered(documents[..|documents| - 1])[documents[|documents| - 1].0 := documents[|documents| - 1].1]
  }

  /** Every file whose digest is recorded. */
  function Recorded(b: Bundle, explain: string, script: string): Directory {
    Gathered(Documents(WithSortedManifest(b)))[ExplainText := TextFile(explain)][ReplayScript := TextFile(script)]
  }

  function MetadataFor(b: Bundle, explain: string, script: string): Metadata {
    Metadata(b.plan.identity, Recorded(b, explain, script))
  }

  /** The directory after a bundle was written into it. */
  function Written(before: Directory, b: Bundle, explain: string, script: string): Directory {
    (before + Recorded(b, explain, script))[MetadataJson := MetadataFile(MetadataFor(b, explain, script))]
  }

  // ---------------------------------------------------------------------------
  // Reading

  function ReadPlan(d: Directory): Result<BuildPlan, BundleError> {
    if BuildPlanJson !in d then Failure(Io(BuildPlanJson))
    else match d[BuildPlanJson] case PlanFile(p) => Success(p) case _ => Failure(Json(BuildPlanJson))
  }

  function ReadManifest(d: Directory): Result<Closure, BundleError> {
    if ArtifactManifestJson !in d then Failure(Io(ArtifactManifestJson))
    else match d[ArtifactManifestJson] case ManifestFile(m) => Success(m) case _ => Failure(Json(ArtifactManifestJson))
  }

  function ReadVerification(d: Directory): Result<VerificationReport, BundleError> {
    if VerificationJson !in d then Failure(Io(VerificationJson))
    else match d[VerificationJson] case VerificationFile(v) => Success(v) case _ => Failure(Json(VerificationJson))
  }

  function ReadAnnex(d: Directory, file: FileName): Result<Annex, BundleError> {
    if file !in d then Failure(Io(file))
    else match d[file] case AnnexFile(a) => Success(a) case _ => Failure(Json(file))
  }

  function ReadDecision(d: Directory): Result<DecisionDocument, BundleError> {
    if DecisionJson !in d then Failure(Io(DecisionJson))
    else match d[DecisionJson] case DecisionFile(x) => Success(x) case _ => Failure(Json(DecisionJson))
  }

  function ReadReport(d: Directory): Result<Report, BundleError> {
    if ReportJson !in d then Failure(Io(ReportJson))
    else match d[ReportJson] case ReportFile(r) => Success(r) case _ => Failure(Json(ReportJson))
  }

  function ReadProof(d: Directory): Result<ReplayProof, BundleError> {
    if ProofJson !in d then Failure(Io(ProofJson))
    else match d[ProofJson] case ProofFile(x) => Success(x) case _ => Failure(Json(ProofJson))
  }

  function ReadMetadata(d: Directory): Result<Metadata, BundleError> {
    if MetadataJson !in d then Failure(Io(MetadataJson))
    else match d[MetadataJson] case MetadataFile(m) => Success(m) case _ => Failure(Json(MetadataJson))
  }

  function ReadPlanning(d: Directory): Result<(BuildPlan, Closure, VerificationReport), BundleError> {
    var plan :- ReadPlan(d);
    var manifest :- ReadManifest(d);
    var verification :- ReadVerification(d);
    Success((plan, manifest, verification))
  }

  function ReadExplanations(d: Directory): Result<(Annex, Annex, Annex), BundleError> {
    var diagnostics :- ReadAnnex(d, DiagnosticsJson);
    var trace :- ReadAnnex(d, RewriteTraceJson);
    var explain :- ReadAnnex(d, ExplainJson);
    Success((diagnostics, trace, explain))
  }

  function ReadRecords(d: Directory): Result<(DecisionDocument, Report, ReplayProof), BundleError> {
    var decision :- ReadDecision(d);
    var report :- ReadReport(d);
    var proof :- ReadProof(d);
    Success((decision, report, proof))
  }

  function ReadEngine(d: Directory): Result<(Annex, Annex, Annex), BundleError> {
    var integration :- ReadAnnex(d, IntegrationJson);
    var socPlan :- ReadAnnex(d, SocPlanJson);
    var entrypoints :- ReadAnnex(d, EntrypointsJson);
    Success((integration, socPlan, entrypoints))
  }

  /** All documents, read one after the other. */
  function ReadAll(d: Directory): Result<Bundle, BundleError> {
    var (plan, manifest, verification) :- ReadPlanning(d);
    var (diagnostics, trace, explain) :- ReadExplanations(d);
    var (decision, report, proof) :- ReadRecords(d);
    var (integration, socPlan, entrypoints) :- ReadEngine(d);
    Success(Bundle(plan, manifest, verification, diagnostics, trace, explain, decision, report, proof,
                   integration, socPlan, entrypoints))
  }

  /** The first document that belongs to another plan. */
  function Stranger(m: Metadata, b: Bundle): Option<FileName> {
    var identity := b.plan.identity;
    if m.planIdentity != identity then Some(MetadataJson)
    else if b.closure.planIdentity != identity then Some(ArtifactManifestJson)
    else if b.diagnostics.planIdentity != identity then Some(DiagnosticsJson)
    else if b.trace.planIdentity != identity then Some(RewriteTraceJson)
    else if b.explain.planIdentity != identity then Some(ExplainJson)
    else if b.decision.planIdentity != identity then Some(DecisionJson)
    else if b.report.planIdentity != identity then Some(ReportJson)
    else if b.proof.planIdentity != identity then Some(ProofJson)
    else if b.integration.planIdentity != identity then Some(IntegrationJson)
    else if b.socPlan.planIdentity != identity then Some(SocPlanJson)
    else if b.entrypoints.planIdentity != identity then Some(EntrypointsJson)
    else None
  }

  /** What the plan and the report say, computed afresh. */
  datatype Verdicts = Verdicts(verification: VerificationReport, decision: DecisionDocument, proof: ReplayProof)

  function Recomputed(p: BuildPlan, report: Report): Verdicts {
    Verdicts(Validate(p), DecisionOf(p), ReplayProofOf(p, report))
  }

  function Checked(m: Metadata, b: Bundle, v: Verdicts): Result<Bundle, BundleError> {
    if Stranger(m, b).Some? then Failure(IdentityMismatch(Stranger(m, b).value))
    else if v.verification != b.verification then Failure(VerificationMismatch)
    else if v.decision != b.decision then Failure(BackendDecisionMismatch)
    else if v.proof != b.proof then Failure(ReplayProofMismatch)
    else Success(WithSortedManifest(b))
  }

  function ReadAndCheck(d: Directory, m: Metadata): Result<Bundle, BundleError> {
    var b :- ReadAll(d);
    Checked(m, b, Recomputed(b.plan, b.report))
  }

  ghost predicate DigestsMatch(d: Directory, m: Metadata) {
    forall file :: file in m.digests ==> file in d && d[file] == m.digests[file]
  }

  /** What loading answers: the metadata first, then every recorded digest, then the rest. */
  ghost predicate LoadsAs(d: Directory, r: Result<Bundle, BundleError>) {
    match ReadMetadata(d)
    case Failure(e) => r == Failure(e)
    case Success(m) =>
      if DigestsMatch(d, m) then r == ReadAndCheck(d, m)
      else exists file :: FirstMismatch(d, m, file)
                          && r == Failure(if file in d then DigestMismatch(file) else Io(file))
  }

  /** The digests are checked in the order of file names, and the first mismatch is reported. */
  ghost predicate FirstMismatch(d: Directory, m: Metadata, file: FileName) {
    && file in m.digests && Mismatches(d, m, file)
    && forall other :: other in m.digests && Mismatches(d, m, other) ==> Precedes(file, other)
  }

  function FileText(file: FileName): string {
    match file
    case BuildPlanJson => "buildplan.json"
    case ArtifactManifestJson => "artifact_manifest.json"
    case VerificationJson => "verification_report.json"
    case DiagnosticsJson => "diagnostics.json"
    case RewriteTraceJson => "rewrite_trace.json"
    case ExplainJson => "optimization_explain.json"
    case DecisionJson => "backend_decision.json"
    case ReportJson => "materialization_report.json"
    case ProofJson => "replay_proof.json"
    case IntegrationJson => "vllm_integration.json"
    case SocPlanJson => "soc_plan.json"
    case EntrypointsJson => "vllm_entrypoints.json"
    case ExplainText => "explain.txt"
    case ReplayScript => "replay.sh"
    case MetadataJson => "bundle_metadata.json"
    case OtherFile(name) => name
  }

  predicate Precedes(a: FileName, b: FileName) { StringLe(FileText(a), FileText(b)) }

  lemma {:induction false} FirstFile(files: set<FileName>) returns (first: FileName)
    requires files != {}
    ensures first in files && forall file :: file in files ==> Precedes(first, file)
  {
    hide FileText, StringLe;
    var x :| x in files;
    StringLeTotal(FileText(x), FileText(x));
    if files == {x} {
      first := x;
    } else {
      var y := FirstFile(files - {x});
      StringLeTotal(FileText(x), FileText(y));
      first := if Precedes(x, y) then x else y;
      forall file | file in files && file != x && Precedes(x, y) ensures Precedes(x, file) {
        assert file in files - {x};
        StringLeTransitive(FileText(x), FileText(y), FileText(file));
      }
    }
  }

  predicate Mismatches(d: Directory, m: Metadata, file: FileName)
    requires file in m.digests
  {
    file !in d || d[file] != m.digests[file]
  }

  // ---------------------------------------------------------------------------
  // The directory, written and read in place

  class BundleDirectory {
    var files: Directory

    constructor ()
      ensures files == map[]
    {
      files := map[];
    }

    /** Writes the documents one by one and notes their digests. */
    method WriteDocuments(documents: seq<(FileName, Content)>) returns (digests: map<FileName, Content>)
      modifies this
      ensures digests == Gathered(documents)
      ensures files == old(files) + digests
    {
      digests := map[];
      for i := 0 to |documents|
        invariant digests == Gathered(documents[..i])
        invariant files == old(files) + digests
      {
        assert documents[..i + 1][..i] == documents[..i];
        Overlay(old(files), digests, documents[i].0, documents[i].1);
        files := files[documents[i].0 := documents[i].1];
        digests := digests[documents[i].0 := documents[i].1];
      }
      assert documents[..|documents|] == documents;
    }

    method WriteTo(b: Bundle, explain: string, script: string) returns (metadata: Metadata)
      modifies this
      ensures files == Written(old(files), b, explain, script)
      ensures metadata == MetadataFor(b, explain, script)
    {
      ghost var before := files;
      var digests := WriteDocuments(Documents(WithSortedManifest(b)));
      Overlay(before, digests, ExplainText, TextFile(explain));
      files := files[ExplainText := TextFile(explain)];
      digests := digests[ExplainText := TextFile(explain)];
      Overlay(before, digests, ReplayScript, TextFile(script));
      files := files[ReplayScript := TextFile(script)];
      digests := digests[ReplayScript := TextFile(script)];
      metadata := Metadata(b.plan.identity, digests);
      files := files[MetadataJson := MetadataFile(metadata)];
    }

    method LoadFrom() returns (r: Result<Bundle, BundleError>)
      ensures LoadsAs(files, r)
    {
      var metadata := ReadMetadata(files);
      if metadata.Failure? {
        return Failure(metadata.error);
      }
      var m := metadata.value;
      var remaining := m.digests.Keys;
      while remaining != {}
        invariant remaining <= m.digests.Keys
        invariant forall file :: file in m.digests && file !in remaining ==>
                  file in files && files[file] == m.digests[file]
        decreases remaining
      {
        ghost var first := FirstFile(remaining);
        var file :| file in remaining && forall other :: other in remaining ==> Precedes(file, other);
        if file !in files {
          assert FirstMismatch(files, m, file);
          return Failure(Io(file));
        }
        if files[file] != m.digests[file] {
          assert FirstMismatch(files, m, file);
          return Failure(DigestMismatch(file));
        }
        remaining := remaining - {file};
      }
      return ReadAndCheck(files, m);
    }
  }

  lemma Overlay(before: Directory, more: Directory, file: FileName, content: Content)
    ensures (before + more)[file := content] == before + more[file := content]
  {
  }

  lemma {:induction false} GatheredIs(documents: seq<(FileName, Content)>, i: nat)
    requires forall j, k :: 0 <= j < k < |documents| ==> documents[j].0 != documents[k].0
    requires i < |documents|
    ensures documents[i].0 in Gathered(documents) && Gathered(documents)[documents[i].0] == documents[i].1
  {
    if i < |documents| - 1 {
      GatheredIs(documents[..|documents| - 1], i);
    }
  }

  lemma {:induction false} GatheredOnly(documents: seq<(FileName, Content)>, file: FileName)
    requires file in Gathered(documents)
    ensures exists i :: 0 <= i < |documents| && documents[i].0 == file
  {
    var m := |documents| - 1;
    if file != documents[m].0 {
      GatheredOnly(documents[..m], file);
    }
  }

  function FileRank(file: FileName): int {
    match file
    case BuildPlanJson => 0 case ArtifactManifestJson => 1 case VerificationJson => 2 case DiagnosticsJson => 3
    case RewriteTraceJson => 4 case ExplainJson => 5 case DecisionJson => 6 case ReportJson => 7 case ProofJson => 8
    case IntegrationJson => 9 case SocPlanJson => 10 case EntrypointsJson => 11
    case _ => 12
  }

  lemma DocumentRanks(b: Bundle)
    ensures |Documents(b)| == 12 && forall j :: 0 <= j < 12 ==> FileRank(Documents(b)[j].0) == j
  {
  }

  lemma MetadataIsNotRecorded(b: Bundle, explain: string, script: string)
    ensures MetadataJson !in Recorded(b, explain, script)
  {
    DocumentRanks(WithSortedManifest(b));
    if MetadataJson in Gathered(Documents(WithSortedManifest(b))) {
      GatheredOnly(Documents(WithSortedManifest(b)), MetadataJson);
      assert false;
    }
  }

  // ---------------------------------------------------------------------------
  // Round trip

  /** The documents of a bundle belong to its plan and say what the plan says. */
  ghost predicate AgreesWith(b: Bundle, v: Verdicts) {
    && b.closure.planIdentity == b.diagnostics.planIdentity == b.trace.planIdentity == b.explain.planIdentity
       == b.report.planIdentity == b.integration.planIdentity == b.socPlan.planIdentity == b.entrypoints.planIdentity
       == b.decision.planIdentity == b.proof.planIdentity == b.plan.identity
    && b.verification == v.verification && b.decision == v.decision && b.proof == v.proof
  }

  ghost predicate Agrees(b: Bundle) { AgreesWith(b, Recomputed(b.plan, b.report)) }

  predicate ManifestSorted(b: Bundle) { b.closure == SortedClosure(b.closure) }

  lemma CheckedExactly(m: Metadata, b: Bundle, v: Verdicts)
    ensures Checked(m, b, v).Success? <==> m.planIdentity == b.plan.identity && AgreesWith(b, v)
    ensures Checked(m, b, v).Success? ==> Checked(m, b, v).value == WithSortedManifest(b)
  {
  }

  /** The directory holds these documents. */
  ghost predicate Carries(d: Directory, documents: seq<(FileName, Content)>) {
    forall i :: 0 <= i < |documents| ==> documents[i].0 in d && d[documents[i].0] == documents[i].1
  }

  lemma GatheredCarries(b: Bundle)
    ensures Carries(Gathered(Documents(b)), Documents(b))
  {
    var documents := Documents(b);
    DocumentRanks(b);
    forall i | 0 <= i < |documents|
      ensures documents[i].0 in Gathered(documents) && Gathered(documents)[documents[i].0] == documents[i].1
    {
      GatheredIs(documents, i);
    }
  }

  /** Other files do not disturb the documents. */
  lemma CarriedUnder(before: Directory, more: Directory, explain: Content, script: Content, metadata: Content,
                     documents: seq<(FileName, Content)>)
    requires Carries(more, documents) && forall i :: 0 <= i < |documents| ==> FileRank(documents[i].0) < 12
    ensures Carries((before + more[ExplainText := explain][ReplayScript := script])[MetadataJson := metadata],
                    documents)
  {
  }

  lemma PlanningIsRead(d: Directory, b: Bundle)
    requires Carries(d, Documents(b))
    ensures ReadPlanning(d) == Success((b.plan, b.closure, b.verification))
  {
    var documents := Documents(b);
    assert documents[0].0 == BuildPlanJson && documents[1].0 == ArtifactManifestJson
           && documents[2].0 == VerificationJson;
  }

  lemma ExplanationsAreRead(d: Directory, b: Bundle)
    requires Carries(d, Documents(b))
    ensures ReadExplanations(d) == Success((b.diagnostics, b.trace, b.explain))
  {
    var documents := Documents(b);
    assert documents[3].0 == DiagnosticsJson && documents[4].0 == RewriteTraceJson && documents[5].0 == ExplainJson;
  }

  lemma RecordsAreRead(d: Directory, b: Bundle)
    requires Carries(d, Documents(b))
    ensures ReadRecords(d) == Success((b.decision, b.report, b.proof))
  {
    var documents := Documents(b);
    assert documents[6].0 == DecisionJson && documents[7].0 == ReportJson && documents[8].0 == ProofJson;
  }

  lemma EngineIsRead(d: Directory, b: Bundle)
    requires Carries(d, Documents(b))
    ensures ReadEngine(d) == Success((b.integration, b.socPlan, b.entrypoints))
  {
    var documents := Documents(b);
    assert documents[9].0 == IntegrationJson && documents[10].0 == SocPlanJson && documents[11].0 == EntrypointsJson;
  }

  lemma CarriedIsRead(d: Directory, b: Bundle)
    requires Carries(d, Documents(b))
    ensures ReadAll(d) == Success(b)
  {
    PlanningIsRead(d, b);
    ExplanationsAreRead(d, b);
    RecordsAreRead(d, b);
    EngineIsRead(d, b);
  }

  lemma ReadsBack(before: Directory, b: Bundle, explain: string, script: string)
    ensures ReadAll(Written(before, b, explain, script)) == Success(WithSortedManifest(b))
  {
    var documents := Documents(WithSortedManifest(b));
    GatheredCarries(WithSortedManifest(b));
    DocumentRanks(WithSortedManifest(b));
    CarriedUnder(before, Gathered(documents), TextFile(explain), TextFile(script),
                 MetadataFile(MetadataFor(b, explain, script)), documents);
    CarriedIsRead(Written(before, b, explain, script), WithSortedManifest(b));
  }

  lemma WrittenMatches(before: Directory, recorded: Directory, metadata: Metadata)
    requires metadata.digests == recorded && MetadataJson !in recorded
    ensures DigestsMatch((before + recorded)[MetadataJson := MetadataFile(metadata)], metadata)
  {
  }

  lemma SortedTwice(c: Closure)
    ensures SortedClosure(SortedClosure(c)) == SortedClosure(c)
  {
    ManifestOrder();
    SortSorts(c.artifacts, ManifestLe);
    SortedIsFixed(Sort(c.artifacts, ManifestLe), ManifestLe);
  }

  lemma ManifestOrder()
    ensures TotalPreorder(ManifestLe)
  {
    StringOrder();
  }

  lemma LoadsWritten(before: Directory, b: Bundle, explain: string, script: string, r: Result<Bundle, BundleError>)
    requires LoadsAs(Written(before, b, explain, script), r)
    ensures r == Checked(MetadataFor(b, explain, script), WithSortedManifest(b), Recomputed(b.plan, b.report))
  {
    MetadataIsNotRecorded(b, explain, script);
    WrittenMatches(before, Recorded(b, explain, script), MetadataFor(b, explain, script));
    ReadsBack(before, b, explain, script);
    LoadsFrom(Written(before, b, explain, script), MetadataFor(b, explain, script), WithSortedManifest(b), r);
  }

  lemma LoadsFrom(d: Directory, m: Metadata, b: Bundle, r: Result<Bundle, BundleError>)
    requires LoadsAs(d, r) && ReadMetadata(d) == Success(m) && DigestsMatch(d, m) && ReadAll(d) == Success(b)
    ensures r == Checked(m, b, Recomputed(b.plan, b.report))
  {
  }

  /** Loading what was written, into whatever directory, succeeds exactly for bundles whose
      documents agree with the plan, and gives the bundle back with its artifacts sorted. */
  lemma RoundTrip(before: Directory, b: Bundle, explain: string, script: string, r: Result<Bundle, BundleError>)
    requires LoadsAs(Written(before, b, explain, script), r)
    ensures r.Success? <==> Agrees(b)
    ensures r.Success? ==> r.value == WithSortedManifest(b) && ManifestSorted(r.value)
  {
    LoadsWritten(before, b, explain, script, r);
    CheckedExactly(MetadataFor(b, explain, script), WithSortedManifest(b), Recomputed(b.plan, b.report));
    SortedTwice(b.closure);
  }

  lemma AcceptedWasChecked(d: Directory, r: Result<Bundle, BundleError>) returns (m: Metadata, b: Bundle)
    requires LoadsAs(d, r) && r.Success?
    ensures ReadMetadata(d) == Success(m) && DigestsMatch(d, m)
    ensures r == Checked(m, b, Recomputed(b.plan, b.report))
  {
    m, b := ReadMetadata(d).value, ReadAll(d).value;
  }

  /** From any directory: what is accepted carries the plan's identity throughout, and its
      verification report, backend decision and replay proof are those recomputed from its
      plan and report; every recorded file has its recorded content. */
  lemma AcceptedIsSound(d: Directory, r: Result<Bundle, BundleError>)
    requires LoadsAs(d, r) && r.Success?
    ensures Agrees(r.value) && ManifestSorted(r.value)
    ensures ReadMetadata(d).Success? && DigestsMatch(d, ReadMetadata(d).value)
    ensures ReadMetadata(d).value.planIdentity == r.value.plan.identity
  {
    var m, b := AcceptedWasChecked(d, r);
    CheckedExactly(m, b, Recomputed(b.plan, b.report));
    SortedTwice(b.closure);
  }

  lemma OnlyMismatch(d: Directory, m: Metadata, file: FileName, r: Result<Bundle, BundleError>)
    requires ReadMetadata(d) == Success(m) && file in m.digests && LoadsAs(d, r)
    requires forall other :: other in m.digests ==> (Mismatches(d, m, other) <==> other == file)
    ensures r == Failure(if file in d then DigestMismatch(file) else Io(file))
  {
    hide ReadAndCheck, FileText, ReadMetadata;
    assert Mismatches(d, m, file);
  }

  /** Changing a recorded file while the metadata stays is noticed, and blamed on that file. */
  lemma TamperIsRejected(d: Directory, file: FileName, content: Content, r: Result<Bundle, BundleError>)
    requires ReadMetadata(d).Success? && DigestsMatch(d, ReadMetadata(d).value)
    requires file in ReadMetadata(d).value.digests && file != MetadataJson && content != d[file]
    requires LoadsAs(d[file := content], r)
    ensures r == Failure(DigestMismatch(file))
  {
    hide LoadsAs;
    OnlyMismatch(d[file := content], ReadMetadata(d).value, file, r);
  }

  /** Removing it is noticed too. */
  lemma RemovalIsRejected(d: Directory, file: FileName, r: Result<Bundle, BundleError>)
    requires ReadMetadata(d).Success? && DigestsMatch(d, ReadMetadata(d).value)
    requires file in ReadMetadata(d).value.digests && file != MetadataJson
    requires LoadsAs(d - {file}, r)
    ensures r == Failure(Io(file))
  {
    hide LoadsAs;
    OnlyMismatch(d - {file}, ReadMetadata(d).value, file, r);
  }
}
