/** The EvalHub adapter: one terminal job resource becomes one evidence envelope. */
module EvalHub {
  import opened Basics
  import opened Order
  import opened Json
  import opened Contracts
  import opened Cycle

  // ----- The parsed job resource -----

  datatype JobState = Pending | Running | Completed | JobFailed | Cancelled | PartiallyFailed

  datatype BenchmarkTest = BenchmarkTest(primaryScore: real, threshold: real, passed: bool)

  datatype Benchmark = Benchmark(
    id: string, providerId: string, index: nat, artifacts: map<string, Json>, test: Option<BenchmarkTest>)

  datatype TestResult = TestResult(score: real, threshold: real, passed: bool)

  datatype Results = Results(benchmarks: seq<Benchmark>, test: Option<TestResult>)

  datatype Job = Job(
    id: string, tenant: string, createdAt: Instant, updatedAt: Instant, state: JobState,
    results: Option<Results>, model: string, collection: Option<string>)

  function BenchmarkIdentity(b: Benchmark): (string, string, nat) { (b.providerId, b.id, b.index) }

  /** What the response models validate. */
  predicate ValidJob(job: Job) {
    && Sized(job.id, 512) && Sized(job.tenant, 256) && job.createdAt <= job.updatedAt && Sized(job.model, 1024)
    && (job.collection.Some? ==> Sized(job.collection.value, 512))
    && (job.results.Some? ==>
          && Distinct(Map(BenchmarkIdentity, job.results.value.benchmarks))
          && forall b :: b in job.results.value.benchmarks ==> Sized(b.id, 512) && Sized(b.providerId, 512))
  }

  function Benchmarks(job: Job): seq<Benchmark> {
    if job.results.Some? then job.results.value.benchmarks else []
  }

  function OverallTest(job: Job): Option<TestResult> {
    if job.results.Some? then job.results.value.test else None
  }

  // ----- Names in the extensions -----

  function Extension(name: string): string { "io.github.eval-hub/" + name }

  function ApiRevision(): string { Extension("api-revision") }
  function BenchmarkTests(): string { Extension("benchmark-tests") }
  function CollectionId(): string { Extension("collection-id") }
  function JobId(): string { Extension("job-id") }
  function JobStateKey(): string { Extension("job-state") }
  function JobTestPresent(): string { Extension("job-test-present") }
  function OciArtifacts(): string { Extension("oci-artifacts") }
  function OciVerifications(): string { Extension("oci-verifications") }
  function ProvenanceMode(): string { Extension("provenance-mode") }
  function RawResponseDigest(): string { Extension("raw-response-digest") }
  function ResultKind(): string { Extension("result-kind") }

  /** Length and first letter tell the names apart. */
  function Mark(key: string): int
    requires |key| > 19
  {
    |key| * 0x110000 + key[19] as int
  }

  function Marked(key: string): int {
    if |key| > 19 then Mark(key) else 0
  }

  lemma Marks()
    ensures Marked(ApiRevision()) == 31 * 0x110000 + 'a' as int
    ensures Marked(BenchmarkTests()) == 34 * 0x110000 + 'b' as int
    ensures Marked(CollectionId()) == 32 * 0x110000 + 'c' as int
    ensures Marked(JobId()) == 25 * 0x110000 + 'j' as int
    ensures Marked(JobStateKey()) == 28 * 0x110000 + 'j' as int
    ensures Marked(JobTestPresent()) == 35 * 0x110000 + 'j' as int
    ensures Marked(OciArtifacts()) == 32 * 0x110000 + 'o' as int
    ensures Marked(OciVerifications()) == 36 * 0x110000 + 'o' as int
    ensures Marked(ProvenanceMode()) == 34 * 0x110000 + 'p' as int
    ensures Marked(RawResponseDigest()) == 38 * 0x110000 + 'r' as int
    ensures Marked(ResultKind()) == 30 * 0x110000 + 'r' as int
  {
  }

  function Revision(): string { "42c09dc6aa0a9f6b1cd1e2bb1b7cacc616dcf13e" }

  function SchemaUri(): string {
    "https://raw.githubusercontent.com/eval-hub/eval-hub/" + Revision() + "/docs/openapi.json#/components/schemas/EvaluationJobResource"
  }

  function StateText(s: JobState): string {
    match s
    case Pending => "pending"
    case Running => "running"
    case Completed => "completed"
    case JobFailed => "failed"
    case Cancelled => "cancelled"
    case PartiallyFailed => "partially_failed"
  }

  // ----- Artifacts -----

  /** Python's str.isspace for one character. */
  predicate IsSpace(c: char) {
    var n := c as int;
    || 0x09 <= n <= 0x0D || 0x1C <= n <= 0x20 || n == 0x85 || n == 0xA0 || n == 0x1680
    || 0x2000 <= n <= 0x200A || n == 0x2028 || n == 0x2029 || n == 0x202F || n == 0x205F || n == 0x3000
  }

  predicate HasSpace(s: string) {
    exists c :: c in s && IsSpace(c)
  }

  predicate EndsWith(s: string, tail: string) {
    |s| >= |tail| && s[|s| - |tail|..] == tail
  }

  /** A reference that is pinned to its digest. */
  predicate PinnedReference(reference: string, digest: string) {
    && IsDigest(digest) && EndsWith(reference, "@" + digest) && |reference| <= 2048 && !HasSpace(reference)
  }

  datatype Artifact = Artifact(benchmarkId: string, index: int, providerId: string, digest: string, reference: string)

  function ArtifactJson(a: Artifact): Json {
    JObj(map["benchmark_id" := JStr(a.benchmarkId), "benchmark_index" := JInt(a.index), "provider_id" := JStr(a.providerId),
             "digest" := JStr(a.digest), "reference" := JStr(a.reference)])
  }

  /** No artifact at all, or a reference pinned to the digest beside it; anything else is refused. */
  function ArtifactOf(b: Benchmark): Answer<Option<Artifact>> {
    var reference, digest := Get(b.artifacts, "oci_reference"), Get(b.artifacts, "oci_digest");
    if reference.JNull? && digest.JNull? then Ok(None)
    else if !reference.JStr? || reference.s == "" then Raise("EvalHubAdapterError")
    else if |reference.s| > 2048 || HasSpace(reference.s) then Raise("EvalHubAdapterError")
    else if !digest.JStr? || !IsDigest(digest.s) then Raise("EvalHubAdapterError")
    else if !EndsWith(reference.s, "@" + digest.s) then Raise("EvalHubAdapterError")
    else Ok(Some(Artifact(b.id, b.index, b.providerId, digest.s, reference.s)))
  }

  function BenchmarkKey(b: Benchmark): (nat, seq<string>) { (b.index, [b.providerId, b.id]) }

  predicate BenchmarkLe(a: (nat, seq<string>), b: (nat, seq<string>)) {
    a.0 < b.0 || (a.0 == b.0 && TupleLe(a.1, b.1))
  }

  function Ordered(benchmarks: seq<Benchmark>): seq<Benchmark> {
    Sort(benchmarks, ByKey(BenchmarkKey, BenchmarkLe))
  }

  predicate WellReferenced(benchmarks: seq<Benchmark>) {
    forall b :: b in benchmarks ==> ArtifactOf(b).Ok?
  }

  predicate FullyReferenced(benchmarks: seq<Benchmark>) {
    forall b :: b in benchmarks ==> ArtifactOf(b).Ok? && ArtifactOf(b).value.Some?
  }

  function Artifacts(benchmarks: seq<Benchmark>): seq<Artifact> {
    if benchmarks == [] then []
    else
      var front, last := Artifacts(benchmarks[..|benchmarks| - 1]), ArtifactOf(benchmarks[|benchmarks| - 1]);
      if last.Ok? && last.value.Some? then front + [last.value.value] else front
  }

  lemma {:induction false} ArtifactCount(benchmarks: seq<Benchmark>)
    ensures |Artifacts(benchmarks)| <= |benchmarks|
    ensures |Artifacts(benchmarks)| == |benchmarks| <==> FullyReferenced(benchmarks)
  {
    hide ArtifactOf;
    if benchmarks != [] {
      var front, last := benchmarks[..|benchmarks| - 1], benchmarks[|benchmarks| - 1];
      ArtifactCount(front);
      assert benchmarks == front + [last];
      assert forall b :: b in benchmarks <==> b in front || b == last;
    }
  }

  lemma {:induction false} ArtifactMembers(benchmarks: seq<Benchmark>, a: Artifact)
    ensures a in Artifacts(benchmarks) <==> exists b :: b in benchmarks && ArtifactOf(b) == Ok(Some(a))
  {
    hide ArtifactOf;
    if benchmarks != [] {
      var front, last := benchmarks[..|benchmarks| - 1], benchmarks[|benchmarks| - 1];
      ArtifactMembers(front, a);
      assert benchmarks == front + [last];
      assert forall b :: b in benchmarks <==> b in front || b == last;
    }
  }

  /** The loop over the benchmarks in canonical order. The flag says that there are benchmarks
      and that every one of them has an artifact. */
  method CollectArtifacts(benchmarks: seq<Benchmark>) returns (collected: Answer<(seq<Artifact>, bool)>)
    ensures collected.Ok? <==> WellReferenced(benchmarks)
    ensures collected.Ok? ==> collected.value == (Artifacts(Ordered(benchmarks)), benchmarks != [] && FullyReferenced(benchmarks))
  {
    hide ArtifactOf, Sort;
    var ordered := Ordered(benchmarks);
    SortMembers(benchmarks, ByKey(BenchmarkKey, BenchmarkLe));
    var artifacts, complete := [], benchmarks != [];
    for i := 0 to |ordered|
      invariant artifacts == Artifacts(ordered[..i]) && WellReferenced(ordered[..i])
      invariant complete <==> benchmarks != [] && FullyReferenced(ordered[..i])
    {
      var b := ordered[i];
      assert ordered[..i + 1][..i] == ordered[..i];
      assert ordered[..i + 1] == ordered[..i] + [b];
      assert forall x :: x in ordered[..i + 1] <==> x in ordered[..i] || x == b;
      assert b in benchmarks && b in ordered[..i + 1];
      var artifact := ArtifactOf(b);
      if artifact.Raise? {
        return Raise(artifact.exception);
      }
      if artifact.value.None? {
        complete := false;
      } else {
        artifacts := artifacts + [artifact.value.value];
      }
    }
    assert ordered[..|ordered|] == ordered;
    ArtifactCount(ordered);
    collected := Ok((artifacts, complete && |artifacts| == |benchmarks|));
  }

  function TestJson(t: BenchmarkTest): Json {
    JObj(map["primary_score" := JReal(t.primaryScore), "threshold" := JReal(t.threshold), "pass" := JBool(t.passed)])
  }

  function SummaryJson(b: Benchmark): Json {
    var identity: map<string, Json> :=
      map["benchmark_id" := JStr(b.id), "benchmark_index" := JInt(b.index), "provider_id" := JStr(b.providerId)];
    JObj(if b.test.Some? then identity["test" := TestJson(b.test.value)] else identity)
  }

  method SummarizeTests(benchmarks: seq<Benchmark>) returns (summaries: seq<Json>)
    ensures summaries == Map(SummaryJson, Ordered(benchmarks))
  {
    hide SummaryJson, Sort;
    var ordered := Ordered(benchmarks);
    summaries := [];
    for i := 0 to |ordered|
      invariant summaries == Map(SummaryJson, ordered[..i])
    {
      summaries := summaries + [SummaryJson(ordered[i])];
    }
    assert ordered[..|ordered|] == ordered;
  }

  // ----- Normalization -----

  /** What urlsplit finds in a URL. */
  datatype Url = Url(scheme: string, netloc: string, path: string, username: string, password: string, query: string, fragment: string)

  /** The libraries: hashing, JSON text, URL splitting, and the parser of the response models. */
  datatype Libraries = Libraries(hash: Hashing, split: string -> Url, parse: Json -> Option<Job>)

  /** The hash yields well-formed digests, and what the parser returns it has validated. */
  ghost predicate Trusted(lib: Libraries) {
    && (forall text :: IsDigest(lib.hash.sha(text)))
    && (forall raw :: lib.parse(raw).Some? ==> ValidJob(lib.parse(raw).value))
  }

  function CanonicalDigest(hash: Hashing, value: Json): string {
    hash.sha(Print(hash.repr, value))
  }

  datatype Request = Request(
    sourceUrl: string, scope: Scope, validity: int, confidence: real, correlationId: Option<string>, modelVersion: Option<string>)

  predicate AbsoluteHttp(u: Url) {
    (u.scheme == "http" || u.scheme == "https") && u.netloc != ""
  }

  predicate Bare(u: Url) {
    u.username == "" && u.password == "" && u.query == "" && u.fragment == ""
  }

  /** The response says itself, before it is parsed, that the job goes on. */
  predicate SaysUnfinished(raw: Json) {
    && raw.JObj? && Get(raw.fields, "status").JObj?
    && (Get(Get(raw.fields, "status").fields, "state") == JStr("pending")
        || Get(Get(raw.fields, "status").fields, "state") == JStr("running"))
  }

  predicate TerminalState(s: JobState) {
    s.Completed? || s.JobFailed? || s.Cancelled? || s.PartiallyFailed?
  }

  /** The job did not get as far as a result of its own. */
  predicate Aborted(s: JobState) {
    s.JobFailed? || s.Cancelled?
  }

  datatype Provenance = Provenance(digest: string, artifactUri: Option<string>, mode: string)

  function ArtifactsJson(artifacts: seq<Artifact>): Json { JArr(Map(ArtifactJson, artifacts)) }

  function ProvenanceOf(hash: Hashing, artifacts: seq<Artifact>, complete: bool, responseDigest: string): Provenance {
    if complete && |artifacts| == 1 then Provenance(artifacts[0].digest, Some(artifacts[0].reference), "oci-manifest")
    else if complete then Provenance(CanonicalDigest(hash, ArtifactsJson(artifacts)), None, "oci-manifest")
    else Provenance(responseDigest, None, "authenticated-api-response")
  }

  datatype JobOutcome = JobOutcome(name: string, value: Json, threshold: Json, status: MeasurementStatus, kind: string)

  function OutcomeOf(job: Job): JobOutcome {
    var test := OverallTest(job);
    if Aborted(job.state) then
      JobOutcome("evalhub.job.execution", JStr(StateText(job.state)), JNull, if job.state.JobFailed? then Failed else Warning, "job-execution")
    else
      JobOutcome(if job.collection.Some? then "evalhub.collection.compliance" else "evalhub.job.compliance",
              if test.Some? then JReal(test.value.score) else JStr(StateText(job.state)),
              if test.Some? then JReal(test.value.threshold) else JNull,
              if job.state.PartiallyFailed? then Warning
              else if test.None? then Unknown
              else if test.value.passed then Passed else Failed,
              if job.collection.Some? then "collection" else "job-result")
  }

  function ExtensionsOf(job: Job, artifacts: seq<Artifact>, mode: string, responseDigest: string, kind: string): map<string, Json> {
    var fixed: map<string, Json> := map[
      ApiRevision() := JStr(Revision()),
      BenchmarkTests() := JArr(Map(SummaryJson, Ordered(Benchmarks(job)))),
      JobId() := JStr(job.id),
      JobStateKey() := JStr(StateText(job.state)),
      JobTestPresent() := JBool(OverallTest(job).Some?),
      OciArtifacts() := ArtifactsJson(artifacts),
      ProvenanceMode() := JStr(mode),
      RawResponseDigest() := JStr(responseDigest),
      ResultKind() := JStr(kind)];
    if job.collection.Some? then fixed[CollectionId() := JStr(job.collection.value)] else fixed
  }

  function EnvelopeOf(job: Job, request: Request, artifacts: seq<Artifact>, provenance: Provenance, responseDigest: string): Envelope {
    var outcome := OutcomeOf(job);
    Envelope(
      Metadata("evalhub:" + job.id,
               if request.correlationId.Some? && request.correlationId.value != "" then request.correlationId.value
               else "evalhub:" + job.tenant + ":" + job.id,
               Some(job.id), job.updatedAt, job.updatedAt + request.validity, request.sourceUrl, SchemaUri()),
      request.scope,
      Subject("model", job.model, request.modelVersion),
      Measurement(outcome.name, outcome.value, if OverallTest(job).Some? then Some("score") else None, outcome.threshold, outcome.status,
                  if job.updatedAt > job.createdAt then Some((job.createdAt, job.updatedAt)) else None),
      Assurance(request.confidence, provenance.digest, provenance.artifactUri),
      ExtensionsOf(job, artifacts, provenance.mode, responseDigest, outcome.kind))
  }

  /** The envelope that an accepted job becomes. */
  function Normalized(lib: Libraries, raw: Json, job: Job, request: Request): Envelope {
    var artifacts := Artifacts(Ordered(Benchmarks(job)));
    var complete := Benchmarks(job) != [] && FullyReferenced(Benchmarks(job));
    var responseDigest := CanonicalDigest(lib.hash, raw);
    EnvelopeOf(job, request, artifacts, ProvenanceOf(lib.hash, artifacts, complete, responseDigest), responseDigest)
  }

  predicate AcceptableRequest(lib: Libraries, request: Request) {
    && request.validity > 0 && 0.0 <= request.confidence <= 1.0
    && AbsoluteHttp(lib.split(request.sourceUrl)) && Bare(lib.split(request.sourceUrl))
  }

  /** The jobs that become evidence: terminal, of the configured tenant, with results where the
      state promises them, and with pinned references wherever there are references. */
  predicate Acceptable(lib: Libraries, raw: Json, request: Request) {
    && AcceptableRequest(lib, request) && !SaysUnfinished(raw) && lib.parse(raw).Some?
    && var job := lib.parse(raw).value;
       && TerminalState(job.state) && job.tenant == request.scope.tenant && (job.results.None? ==> Aborted(job.state))
       && WellReferenced(Benchmarks(job)) && ValidEnvelope(Normalized(lib, raw, job, request))
  }

  method CheckRequest(lib: Libraries, request: Request) returns (accepted: bool)
    ensures accepted <==> AcceptableRequest(lib, request)
  {
    if request.validity <= 0 || !(0.0 <= request.confidence <= 1.0) {
      return false;
    }
    var url := lib.split(request.sourceUrl);
    if (url.scheme != "http" && url.scheme != "https") || url.netloc == "" {
      return false;
    }
    accepted := url.username == "" && url.password == "" && url.query == "" && url.fragment == "";
  }

  method CheckUnfinished(raw: Json) returns (unfinished: bool)
    ensures unfinished <==> SaysUnfinished(raw)
  {
    var status := if raw.JObj? then Get(raw.fields, "status") else JNull;
    var state := if status.JObj? then Get(status.fields, "state") else JNull;
    unfinished := state == JStr("pending") || state == JStr("running");
  }

  method ChooseProvenance(hash: Hashing, artifacts: seq<Artifact>, complete: bool, responseDigest: string) returns (p: Provenance)
    ensures p == ProvenanceOf(hash, artifacts, complete, responseDigest)
  {
    hide CanonicalDigest, ArtifactsJson;
    if complete {
      if |artifacts| == 1 {
        p := Provenance(artifacts[0].digest, Some(artifacts[0].reference), "oci-manifest");
      } else {
        p := Provenance(CanonicalDigest(hash, ArtifactsJson(artifacts)), None, "oci-manifest");
      }
    } else {
      p := Provenance(responseDigest, None, "authenticated-api-response");
    }
  }

  /** The adapter. A job that goes on is told apart from a response that is no job. */
  method NormalizeJob(lib: Libraries, raw: Json, request: Request) returns (envelope: Answer<Envelope>)
    ensures envelope.Ok? <==> Acceptable(lib, raw, request)
    ensures envelope.Ok? ==> envelope.value == Normalized(lib, raw, lib.parse(raw).value, request)
    ensures AcceptableRequest(lib, request) && SaysUnfinished(raw) ==> envelope == Raise("EvalHubJobNotTerminalError")
  {
    hide WellReferenced, FullyReferenced, EnvelopeOf, ValidEnvelope, CanonicalDigest, Artifacts, ProvenanceOf, Ordered;
    hide AcceptableRequest, SaysUnfinished;
    var accepted := CheckRequest(lib, request);
    if !accepted {
      return Raise("EvalHubAdapterError");
    }
    var unfinished := CheckUnfinished(raw);
    if unfinished {
      return Raise("EvalHubJobNotTerminalError");
    }
    var parsed := lib.parse(raw);
    if parsed.None? {
      return Raise("EvalHubAdapterError");
    }
    var job := parsed.value;
    if job.state.Pending? || job.state.Running? {
      return Raise("EvalHubJobNotTerminalError");
    }
    if job.tenant != request.scope.tenant {
      return Raise("EvalHubAdapterError");
    }
    if (job.state.Completed? || job.state.PartiallyFailed?) && job.results.None? {
      return Raise("EvalHubAdapterError");
    }
    var responseDigest := CanonicalDigest(lib.hash, raw);
    var collected := CollectArtifacts(Benchmarks(job));
    if collected.Raise? {
      return Raise(collected.exception);
    }
    var (artifacts, complete) := collected.value;
    var provenance := ChooseProvenance(lib.hash, artifacts, complete, responseDigest);
    var result := EnvelopeOf(job, request, artifacts, provenance, responseDigest);
    envelope := if ValidEnvelope(result) then Ok(result) else Raise("ValidationError");
  }

  // ----- Reading the extensions back -----

  /** The extensions hold what was put there, name by name; no verification yet. */
  lemma ExtensionsRead(job: Job, artifacts: seq<Artifact>, mode: string, responseDigest: string, kind: string)
    ensures var x := ExtensionsOf(job, artifacts, mode, responseDigest, kind);
      && Get(x, ApiRevision()) == JStr(Revision()) && Get(x, JobId()) == JStr(job.id)
      && Get(x, JobStateKey()) == JStr(StateText(job.state)) && Get(x, JobTestPresent()) == JBool(OverallTest(job).Some?)
      && Get(x, OciArtifacts()) == ArtifactsJson(artifacts) && Get(x, ProvenanceMode()) == JStr(mode)
      && Get(x, RawResponseDigest()) == JStr(responseDigest) && Get(x, ResultKind()) == JStr(kind)
      && Get(x, OciVerifications()) == JNull
  {
    Marks();
    hide ApiRevision, BenchmarkTests, CollectionId, JobId, JobStateKey, JobTestPresent, OciArtifacts;
    hide OciVerifications, ProvenanceMode, RawResponseDigest, ResultKind, Marked, Revision, StateText;
    hide ArtifactsJson, SummaryJson, Ordered;
  }
}
