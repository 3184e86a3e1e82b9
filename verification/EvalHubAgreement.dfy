/** The EvalHub adapter and the EvalHub policy agree, although each works the facts out for
    itself: in default mode by an exact condition on the job, in strict mode by a bijection
    between artifacts and receipts. */
module EvalHubAgreement {
  import opened Basics
  import opened Order
  import opened Json
  import opened Contracts
  import opened Cycle
  import opened EvalHub
  import opened EvalHubPolicy

  // ----- The manifest -----

  lemma ArtifactRead(a: Artifact)
    ensures ArtifactJson(a).JObj?
    ensures var f := ArtifactJson(a).fields;
      && Get(f, "benchmark_id") == JStr(a.benchmarkId) && Get(f, "benchmark_index") == JInt(a.index)
      && Get(f, "provider_id") == JStr(a.providerId) && Get(f, "digest") == JStr(a.digest)
      && Get(f, "reference") == JStr(a.reference)
  {
  }

  /** Every artifact that the adapter lists is pinned to its digest. */
  lemma ArtifactsPinned(benchmarks: seq<Benchmark>, a: Artifact)
    requires a in Artifacts(benchmarks)
    ensures PinnedReference(a.reference, a.digest)
  {
    hide IsDigest, HasSpace, EndsWith;
    ArtifactMembers(benchmarks, a);
  }

  lemma ManifestEntry(a: Artifact)
    requires PinnedReference(a.reference, a.digest)
    ensures EntryProblem(ArtifactJson(a)).None?
  {
    ArtifactRead(a);
    hide ArtifactJson, IsDigest, HasSpace, EndsWith, Get;
  }

  lemma ManifestAccepted(hash: Hashing, e: Envelope, benchmarks: seq<Benchmark>)
    requires var artifacts := Artifacts(benchmarks); var provenance := ProvenanceOf(hash, artifacts, true, "");
      && artifacts != [] && Get(e.extensions, OciArtifacts()) == ArtifactsJson(artifacts)
      && e.assurance.digest == provenance.digest && e.assurance.artifactUri == provenance.artifactUri
    ensures ManifestProblem(hash, e).None?
  {
    hide ArtifactJson, EntryProblem, OciArtifacts, CanonicalDigest, Artifacts, PinnedReference;
    var artifacts := Artifacts(benchmarks);
    var entries := ArtifactsJson(artifacts).items;
    forall x | x in entries ensures EntryProblem(x).None? {
      var i :| 0 <= i < |artifacts| && entries[i] == x;
      ArtifactsPinned(benchmarks, artifacts[i]);
      ManifestEntry(artifacts[i]);
    }
    NoEntryProblem(entries);
    ArtifactRead(artifacts[0]);
    assert entries[0] == ArtifactJson(artifacts[0]);
  }

  lemma OrderedMembers(benchmarks: seq<Benchmark>)
    ensures |Ordered(benchmarks)| == |benchmarks| && multiset(Ordered(benchmarks)) == multiset(benchmarks)
    ensures FullyReferenced(Ordered(benchmarks)) <==> FullyReferenced(benchmarks)
  {
    hide ArtifactOf;
    SortMembers(benchmarks, ByKey(BenchmarkKey, BenchmarkLe));
  }

  /** What the policy derives from the extensions matches the assurance, whether the evidence
      rests on one artifact, on several, or on the response itself. */
  lemma NormalizedHasProvenance(lib: Libraries, raw: Json, job: Job, request: Request)
    requires Trusted(lib)
    ensures ProvenanceProblem(lib.hash, Normalized(lib, raw, job, request)).None?
  {
    hide ArtifactJson, EntryProblem, OciArtifacts, CanonicalDigest, Artifacts, ExtensionsOf, Ordered, IsDigest;
    hide ManifestProblem, ProvenanceMode, RawResponseDigest, OutcomeOf, SchemaUri, FullyReferenced, Get;
    var e := Normalized(lib, raw, job, request);
    var ordered := Ordered(Benchmarks(job));
    var artifacts := Artifacts(ordered);
    var complete := Benchmarks(job) != [] && FullyReferenced(Benchmarks(job));
    var response := CanonicalDigest(lib.hash, raw);
    var provenance := ProvenanceOf(lib.hash, artifacts, complete, response);
    ExtensionsRead(job, artifacts, provenance.mode, response, OutcomeOf(job).kind);
    DigestsWellFormed(lib, raw);
    if complete {
      OrderedMembers(Benchmarks(job));
      ArtifactCount(ordered);
      ManifestAccepted(lib.hash, e, ordered);
    }
    assert "oci-manifest" != "authenticated-api-response";
  }

  lemma DigestsWellFormed(lib: Libraries, value: Json)
    requires Trusted(lib)
    ensures IsDigest(CanonicalDigest(lib.hash, value))
  {
    hide IsDigest, Print;
  }

  // ----- Default mode -----

  /** The job has a result of its own to show: a test, and an artifact for every benchmark. */
  predicate Documented(job: Job) {
    OverallTest(job).Some? && Benchmarks(job) != [] && FullyReferenced(Benchmarks(job))
  }

  lemma ResultConsistent(lib: Libraries, raw: Json, job: Job, request: Request)
    requires TerminalState(job.state)
    ensures ConsistentResult(Normalized(lib, raw, job, request)) <==> Aborted(job.state) || OverallTest(job).Some?
    ensures var kind := Get(Normalized(lib, raw, job, request).extensions, ResultKind());
      kind == JStr("job-execution") <==> Aborted(job.state)
    ensures Hashable(Normalized(lib, raw, job, request))
  {
    hide CanonicalDigest, Artifacts, ExtensionsOf, Ordered, ProvenanceOf, SchemaUri, FullyReferenced, Get;
    hide JobStateKey, ResultKind, JobTestPresent, JobId;
    var artifacts := Artifacts(Ordered(Benchmarks(job)));
    var response := CanonicalDigest(lib.hash, raw);
    var complete := Benchmarks(job) != [] && FullyReferenced(Benchmarks(job));
    ExtensionsRead(job, artifacts, ProvenanceOf(lib.hash, artifacts, complete, response).mode, response, OutcomeOf(job).kind);
    KindsDiffer();
  }

  lemma KindsDiffer()
    ensures "job-execution" != "collection" && "job-execution" != "job-result"
    ensures StateText(JobFailed) != StateText(Completed) && StateText(JobFailed) != StateText(PartiallyFailed)
    ensures StateText(Cancelled) != StateText(Completed) && StateText(Cancelled) != StateText(PartiallyFailed)
  {
    assert |"job-execution"| == 13 && |"collection"| == 10 && |"job-result"| == 10;
    assert |"failed"| == 6 && |"completed"| == 9 && |"cancelled"| == 9 && |"partially_failed"| == 16;
    assert "completed"[1] == 'o' && "cancelled"[1] == 'a';
  }

  /** The host has configured the policy for what the adapter was asked to fetch. */
  ghost predicate Configured(p: Policy, lib: Libraries, request: Request, scope: Scope) {
    && p.hash == lib.hash && p.split == lib.split && AtOrBelow(p.split, request.sourceUrl, p.prefix)
    && request.scope == scope && request.confidence >= p.minimum
  }

  lemma ContractPinned(p: Policy, lib: Libraries, raw: Json, job: Job, request: Request, scope: Scope)
    requires Configured(p, lib, request, scope)
    ensures var e := Normalized(lib, raw, job, request); PinnedContract(p, e, scope) && e.assurance.confidence >= p.minimum
  {
    hide CanonicalDigest, Artifacts, ExtensionsOf, Ordered, ProvenanceOf, SchemaUri, FullyReferenced, AtOrBelow;
    hide OutcomeOf, Get, ApiRevision, Revision;
    var artifacts := Artifacts(Ordered(Benchmarks(job)));
    var response := CanonicalDigest(lib.hash, raw);
    var complete := Benchmarks(job) != [] && FullyReferenced(Benchmarks(job));
    ExtensionsRead(job, artifacts, ProvenanceOf(lib.hash, artifacts, complete, response).mode, response, OutcomeOf(job).kind);
  }

  lemma ModeOf(lib: Libraries, raw: Json, job: Job, request: Request)
    ensures Get(Normalized(lib, raw, job, request).extensions, ProvenanceMode()) == JStr("oci-manifest")
       <==> Benchmarks(job) != [] && FullyReferenced(Benchmarks(job))
  {
    hide CanonicalDigest, Artifacts, ExtensionsOf, Ordered, SchemaUri, FullyReferenced, OutcomeOf, Get;
    hide ProvenanceMode, ArtifactsJson;
    var artifacts := Artifacts(Ordered(Benchmarks(job)));
    var response := CanonicalDigest(lib.hash, raw);
    var complete := Benchmarks(job) != [] && FullyReferenced(Benchmarks(job));
    ExtensionsRead(job, artifacts, ProvenanceOf(lib.hash, artifacts, complete, response).mode, response, OutcomeOf(job).kind);
    assert "oci-manifest"[0] == 'o' && "authenticated-api-response"[0] == 'a';
  }

  /** In default mode the policy admits what the adapter made of a job exactly if the job failed
      or was cancelled, or is documented. */
  lemma DefaultPolicyAgrees(p: Policy, lib: Libraries, raw: Json, request: Request, scope: Scope)
    requires Trusted(lib) && Acceptable(lib, raw, request) && Configured(p, lib, request, scope)
    requires p.requireOci && !p.requireVerified
    ensures var job := lib.parse(raw).value; var e := Normalized(lib, raw, job, request);
      && (Admits(p, e, scope) <==> Aborted(job.state) || Documented(job))
      && ProvenanceProblem(p.hash, e).None? && Hashable(e)
  {
    hide Trusted, Normalized, PinnedContract, ConsistentResult, ProvenanceProblem, Hashable, Configured, Get;
    hide ProvenanceMode, ResultKind, ValidEnvelope, FullyReferenced, WellReferenced, VerificationProblem;
    var job := lib.parse(raw).value;
    NormalizedHasProvenance(lib, raw, job, request);
    ResultConsistent(lib, raw, job, request);
    ContractPinned(p, lib, raw, job, request, scope);
    ModeOf(lib, raw, job, request);
    SameHash(p, lib, request, scope);
  }

  lemma SameHash(p: Policy, lib: Libraries, request: Request, scope: Scope)
    requires Configured(p, lib, request, scope)
    ensures p.hash == lib.hash
  {
    hide AtOrBelow;
  }

  /** What the evidence measures: the overall test where there is one and the job got that far, the
      state of the job otherwise. */
  lemma NormalizedMeasurement(lib: Libraries, raw: Json, job: Job, request: Request)
    requires TerminalState(job.state)
    ensures var m := Normalized(lib, raw, job, request).measurement; var test := OverallTest(job);
      && (if !Aborted(job.state) && test.Some? then m.value == JReal(test.value.score) && m.threshold == JReal(test.value.threshold)
          else m.value == JStr(StateText(job.state)) && m.threshold == JNull)
      && (m.status.Passed? <==> job.state.Completed? && test.Some? && test.value.passed)
      && (m.status.Failed? <==> job.state.JobFailed? || (job.state.Completed? && test.Some? && !test.value.passed))
      && (m.status.Warning? <==> job.state.Cancelled? || job.state.PartiallyFailed?)
  {
    hide CanonicalDigest, Artifacts, ExtensionsOf, Ordered, ProvenanceOf, SchemaUri, FullyReferenced, StateText;
  }

  /** The evidence speaks for the model from the last update of the job, for exactly the requested
      time, and for the time between creation and update if there is any. */
  lemma NormalizedWindow(lib: Libraries, raw: Json, job: Job, request: Request, t: Instant)
    ensures var e := Normalized(lib, raw, job, request);
      && (FreshAt(e, t) <==> job.updatedAt <= t < job.updatedAt + request.validity)
      && e.subject.id == job.model && e.metadata.causationId == Some(job.id)
      && (e.measurement.window == if job.createdAt < job.updatedAt then Some((job.createdAt, job.updatedAt)) else None)
  {
    hide CanonicalDigest, Artifacts, ExtensionsOf, Ordered, ProvenanceOf, SchemaUri, FullyReferenced, OutcomeOf;
  }
}
