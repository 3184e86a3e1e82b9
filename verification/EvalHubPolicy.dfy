/** The EvalHub policy pack. It reads an envelope as any producer may have written it, and
    works the provenance out again from the extensions alone. */
module EvalHubPolicy {
  import opened Basics
  import opened Order
  import opened Json
  import opened Contracts
  import opened Cycle
  import opened EvalHub

  // ----- Provenance -----

  /** What is wrong with one entry of the manifest. */
  function EntryProblem(entry: Json): Option<string> {
    if !entry.JObj? then Some("OCI manifest entry is not an object")
    else
      var digest, reference := Get(entry.fields, "digest"), Get(entry.fields, "reference");
      if !digest.JStr? || !IsDigest(digest.s) then Some("OCI manifest contains an invalid digest")
      else if !reference.JStr? || !EndsWith(reference.s, "@" + digest.s) || |reference.s| > 2048 || HasSpace(reference.s) then
        Some("OCI manifest contains a mismatched reference")
      else None
  }

  function FirstEntryProblem(entries: seq<Json>): Option<string> {
    if entries == [] then None
    else if EntryProblem(entries[0]).Some? then EntryProblem(entries[0])
    else FirstEntryProblem(entries[1..])
  }

  lemma {:induction false} NoEntryProblem(entries: seq<Json>)
    ensures FirstEntryProblem(entries).None? <==> forall x :: x in entries ==> EntryProblem(x).None?
  {
    hide EntryProblem;
    if entries != [] {
      NoEntryProblem(entries[1..]);
      assert forall x :: x in entries <==> x == entries[0] || x in entries[1..];
    }
  }

  function ManifestProblem(hash: Hashing, e: Envelope): Option<string> {
    var manifest := Get(e.extensions, OciArtifacts());
    if !manifest.JArr? || manifest.items == [] then Some("OCI manifest is empty")
    else if FirstEntryProblem(manifest.items).Some? then FirstEntryProblem(manifest.items)
    else if |manifest.items| == 1 then
      var entry := manifest.items[0];
      if entry.JObj? && JStr(e.assurance.digest) == Get(entry.fields, "digest") && e.assurance.artifactUri.Some?
         && JStr(e.assurance.artifactUri.value) == Get(entry.fields, "reference")
      then None
      else Some("single OCI artifact does not match assurance")
    else if e.assurance.digest != CanonicalDigest(hash, manifest) || e.assurance.artifactUri.Some? then
      Some("OCI manifest digest does not match assurance")
    else None
  }

  function ProvenanceProblem(hash: Hashing, e: Envelope): Option<string> {
    var mode := Get(e.extensions, ProvenanceMode());
    if mode == JStr("authenticated-api-response") then
      var response := Get(e.extensions, RawResponseDigest());
      if !response.JStr? || !IsDigest(response.s) then Some("invalid authenticated API response digest")
      else if e.assurance.digest != response.s || (e.assurance.artifactUri.Some? && e.assurance.artifactUri.value != "") then
        Some("API response provenance does not match assurance")
      else None
    else if mode != JStr("oci-manifest") then Some("unsupported provenance mode")
    else ManifestProblem(hash, e)
  }

  // ----- Content verification -----

  /** How receipts are written into extensions and read back. */
  datatype Codec = Codec(dump: Receipt -> Json, load: Json -> Option<Receipt>)

  datatype Identity = Identity(benchmarkId: string, index: int, providerId: string, reference: string, digest: string)

  function IdentityOfEntry(entry: Json): Option<Identity> {
    if !entry.JObj? then None
    else
      var benchmark, index := Get(entry.fields, "benchmark_id"), Get(entry.fields, "benchmark_index");
      var provider, reference, digest :=
        Get(entry.fields, "provider_id"), Get(entry.fields, "reference"), Get(entry.fields, "digest");
      if benchmark.JStr? && index.JInt? && provider.JStr? && reference.JStr? && digest.JStr? then
        Some(Identity(benchmark.s, index.i, provider.s, reference.s, digest.s))
      else None
  }

  /** Tuples compare field by field. */
  predicate IdentityLe(a: Identity, b: Identity) {
    if a.benchmarkId != b.benchmarkId then StringLe(a.benchmarkId, b.benchmarkId)
    else if a.index != b.index then a.index <= b.index
    else TupleLe([a.providerId, a.reference, a.digest], [b.providerId, b.reference, b.digest])
  }

  function Identities(entries: seq<Json>): seq<Option<Identity>> { Map(IdentityOfEntry, entries) }

  predicate AllIdentified(entries: seq<Json>) {
    None !in Identities(entries)
  }

  function Named(x: Option<Identity>): Identity {
    if x.Some? then x.value else Identity("", 0, "", "", "")
  }

  function SortedIdentities(entries: seq<Json>): seq<Identity> {
    Sort(Map(Named, Identities(entries)), IdentityLe)
  }

  function ReceiptProblem(codec: Codec, trusted: set<string>, e: Envelope, entry: Json): Option<string> {
    if !entry.JObj? then Some("OCI content verification entry is not an object")
    else
      var receipt := codec.load(Get(entry.fields, "receipt"));
      if receipt.None? then Some("OCI content verification receipt is invalid")
      else if receipt.value.verifier !in trusted then Some("OCI content verification used an untrusted verifier")
      else if JStr(receipt.value.artifactUri) != Get(entry.fields, "reference")
              || JStr(receipt.value.artifactDigest) != Get(entry.fields, "digest") then
        Some("OCI content verification receipt is bound to different content")
      else if receipt.value.content == [] then Some("OCI content verification did not verify descriptor payloads")
      else if !(e.metadata.observedAt <= receipt.value.verifiedAt <= e.metadata.expiresAt) then
        Some("OCI content verification is outside the evidence validity window")
      else None
  }

  function FirstReceiptProblem(codec: Codec, trusted: set<string>, e: Envelope, entries: seq<Json>): Option<string> {
    if entries == [] then None
    else if ReceiptProblem(codec, trusted, e, entries[0]).Some? then ReceiptProblem(codec, trusted, e, entries[0])
    else FirstReceiptProblem(codec, trusted, e, entries[1..])
  }

  lemma {:induction false} NoReceiptProblem(codec: Codec, trusted: set<string>, e: Envelope, entries: seq<Json>)
    ensures FirstReceiptProblem(codec, trusted, e, entries).None?
       <==> forall x :: x in entries ==> ReceiptProblem(codec, trusted, e, x).None?
  {
    hide ReceiptProblem;
    if entries != [] {
      NoReceiptProblem(codec, trusted, e, entries[1..]);
      assert forall x :: x in entries <==> x == entries[0] || x in entries[1..];
    }
  }

  predicate Matching(artifacts: seq<Json>, verifications: seq<Json>) {
    && AllIdentified(artifacts) && AllIdentified(verifications) && Distinct(Identities(artifacts))
    && SortedIdentities(artifacts) == SortedIdentities(verifications)
  }

  function VerificationProblem(codec: Codec, trusted: set<string>, e: Envelope): Option<string> {
    var artifacts, verifications := Get(e.extensions, OciArtifacts()), Get(e.extensions, OciVerifications());
    if !artifacts.JArr? || artifacts.items == [] then Some("OCI manifest is empty")
    else if !verifications.JArr? || |verifications.items| != |artifacts.items| then
      Some("OCI content verification receipts are incomplete")
    else if !Matching(artifacts.items, verifications.items) then
      Some("OCI content verification receipts do not match the manifest")
    else FirstReceiptProblem(codec, trusted, e, verifications.items)
  }

  // ----- The policy -----

  datatype Policy = Policy(
    hash: Hashing, codec: Codec, split: string -> Url, prefix: string, requireOci: bool, requireVerified: bool,
    trusted: set<string>, minimum: real)

  function WithoutSlashes(s: string): string {
    if s != "" && s[|s| - 1] == '/' then WithoutSlashes(s[..|s| - 1]) else s
  }

  predicate AtOrBelow(split: string -> Url, value: string, prefix: string) {
    var candidate, expected := split(value), split(WithoutSlashes(prefix) + "/");
    && candidate.scheme == expected.scheme && candidate.netloc == expected.netloc
    && var path := WithoutSlashes(expected.path);
       candidate.path == path || path + "/" <= candidate.path
  }

  predicate TerminalText(j: Json) {
    j == JStr("completed") || j == JStr("failed") || j == JStr("cancelled") || j == JStr("partially_failed")
  }

  predicate AbortedText(j: Json) {
    j == JStr("failed") || j == JStr("cancelled")
  }

  predicate KnownKind(j: Json) {
    j == JStr("collection") || j == JStr("job-result") || j == JStr("job-execution")
  }

  /** Python's truth value of a JSON value. */
  predicate Truthy(j: Json) {
    match j
    case JNull => false
    case JBool(b) => b
    case JInt(i) => i != 0
    case JReal(r) => r != 0.0
    case JStr(s) => s != ""
    case JArr(items) => items != []
    case JObj(fields) => fields != map[]
  }

  /** The schema, the producer, the scope and the revision are the expected ones. */
  predicate PinnedContract(p: Policy, e: Envelope, scope: Scope) {
    && e.metadata.schemaUri == SchemaUri() && AtOrBelow(p.split, e.metadata.producer, p.prefix) && e.scope == scope
    && Get(e.extensions, ApiRevision()) == JStr(Revision())
  }

  /** The envelope is about the job that it names, and state, kind and test fit together. */
  predicate ConsistentResult(e: Envelope) {
    var state, kind := Get(e.extensions, JobStateKey()), Get(e.extensions, ResultKind());
    && Get(e.extensions, JobId()).JStr? && e.metadata.id == "evalhub:" + Get(e.extensions, JobId()).s
    && TerminalText(state) && KnownKind(kind)
    && (kind == JStr("job-execution") <==> AbortedText(state))
    && (kind != JStr("job-execution") && !AbortedText(state) ==> Truthy(Get(e.extensions, JobTestPresent())))
  }

  predicate Provenanced(p: Policy, e: Envelope) {
    && ProvenanceProblem(p.hash, e).None?
    && (p.requireOci && Get(e.extensions, ResultKind()) != JStr("job-execution") ==>
          Get(e.extensions, ProvenanceMode()) == JStr("oci-manifest"))
    && (p.requireVerified ==> VerificationProblem(p.codec, p.trusted, e).None?)
  }

  predicate Admits(p: Policy, e: Envelope, scope: Scope) {
    PinnedContract(p, e, scope) && ConsistentResult(e) && Provenanced(p, e) && e.assurance.confidence >= p.minimum
  }

  /** State and kind are looked up in sets, which Python refuses for lists and objects. */
  predicate Hashable(e: Envelope) {
    var state, kind := Get(e.extensions, JobStateKey()), Get(e.extensions, ResultKind());
    !state.JArr? && !state.JObj? && !kind.JArr? && !kind.JObj?
  }

  function CheckName(): string { "evalhub-evidence-v1alpha1" }

  function Says(e: Envelope, problem: string): string { e.metadata.id + ": " + problem }

  method ContractReasons(p: Policy, e: Envelope, scope: Scope) returns (reasons: seq<string>)
    ensures reasons == [] <==> PinnedContract(p, e, scope)
  {
    hide AtOrBelow, SchemaUri, Revision, ApiRevision, Get, Says;
    reasons := [];
    if e.metadata.schemaUri != SchemaUri() { reasons := reasons + [Says(e, "unsupported EvalHub schema")]; }
    if !AtOrBelow(p.split, e.metadata.producer, p.prefix) { reasons := reasons + [Says(e, "unexpected producer")]; }
    if e.scope != scope { reasons := reasons + [Says(e, "scope mismatch")]; }
    if Get(e.extensions, ApiRevision()) != JStr(Revision()) { reasons := reasons + [Says(e, "unpinned API revision")]; }
  }

  method ResultReasons(e: Envelope) returns (reasons: seq<string>)
    ensures reasons == [] <==> ConsistentResult(e)
  {
    hide Truthy, JobId, JobStateKey, JobTestPresent, ResultKind, Get, Says;
    reasons := [];
    var state := Get(e.extensions, JobStateKey());
    if !TerminalText(state) { reasons := reasons + [Says(e, "job is not terminal")]; }
    var kind := Get(e.extensions, ResultKind());
    if !KnownKind(kind) { reasons := reasons + [Says(e, "unsupported result kind")]; }
    var jobId := Get(e.extensions, JobId());
    if !jobId.JStr? || e.metadata.id != "evalhub:" + jobId.s { reasons := reasons + [Says(e, "job identity mismatch")]; }
    var execution := kind == JStr("job-execution");
    if execution && !AbortedText(state) { reasons := reasons + [Says(e, "job execution state mismatch")]; }
    if !execution && AbortedText(state) { reasons := reasons + [Says(e, "result state mismatch")]; }
    if (kind == JStr("collection") || kind == JStr("job-result"))
       && (state == JStr("completed") || state == JStr("partially_failed")) && !Truthy(Get(e.extensions, JobTestPresent()))
    {
      reasons := reasons + [Says(e, "compliance result has no test")];
    }
  }

  method ProvenanceReasons(p: Policy, e: Envelope) returns (reasons: seq<string>)
    ensures reasons == [] <==> Provenanced(p, e)
  {
    hide ProvenanceProblem, VerificationProblem, ProvenanceMode, ResultKind, Get, Says;
    reasons := [];
    var provenance := ProvenanceProblem(p.hash, e);
    if provenance.Some? { reasons := reasons + [Says(e, provenance.value)]; }
    if p.requireOci && Get(e.extensions, ResultKind()) != JStr("job-execution")
       && Get(e.extensions, ProvenanceMode()) != JStr("oci-manifest")
    {
      reasons := reasons + [Says(e, "complete OCI provenance is required")];
    }
    if p.requireVerified {
      var verification := VerificationProblem(p.codec, p.trusted, e);
      if verification.Some? { reasons := reasons + [Says(e, verification.value)]; }
    }
  }

  /** The reasons that the loop collects for one item, in its order. */
  method ItemReasons(p: Policy, e: Envelope, scope: Scope) returns (reasons: seq<string>)
    ensures reasons == [] <==> Admits(p, e, scope)
  {
    hide PinnedContract, ConsistentResult, Provenanced, Says;
    var contract := ContractReasons(p, e, scope);
    var result := ResultReasons(e);
    var provenance := ProvenanceReasons(p, e);
    reasons := contract + result + provenance;
    if e.assurance.confidence < p.minimum { reasons := reasons + [Says(e, "confidence is below the policy floor")]; }
  }

  function Joined(reasons: seq<string>): string {
    if reasons == [] then "" else if |reasons| == 1 then reasons[0] else reasons[0] + "; " + Joined(reasons[1..])
  }

  /** The policy allows the evidence exactly if it admits every item. It cannot answer for two
      items with one digest, nor for an item whose state or kind is no plain value. */
  method Evaluate(p: Policy, evidence: seq<Envelope>, scope: Scope) returns (r: Answer<PolicyResult>)
    ensures r.Ok? <==> (forall e :: e in evidence ==> Hashable(e)) && Distinct(Map(DigestOf, evidence))
    ensures r.Ok? ==>
      && (r.value.allowed <==> forall e :: e in evidence ==> Admits(p, e, scope))
      && r.value.checkId == CheckName() && r.value.evidenceRefs == Map(DigestOf, evidence) && ValidPolicyResult(r.value)
  {
    hide Admits, Hashable, Distinct;
    var reasons: seq<string> := [];
    for i := 0 to |evidence|
      invariant forall k :: 0 <= k < i ==> Hashable(evidence[k])
      invariant reasons == [] <==> forall k :: 0 <= k < i ==> Admits(p, evidence[k], scope)
    {
      if !Hashable(evidence[i]) {
        assert evidence[i] in evidence;
        return Raise("TypeError");
      }
      var found := ItemReasons(p, evidence[i], scope);
      reasons := reasons + found;
    }
    if !Distinct(Map(DigestOf, evidence)) {
      return Raise("ValidationError");
    }
    assert reasons == [] ==> forall e :: e in evidence ==> Admits(p, e, scope);
    assert (forall e :: e in evidence ==> Admits(p, e, scope)) ==> forall k :: 0 <= k < |evidence| ==> Admits(p, evidence[k], scope);
    r := Ok(PolicyResult(CheckName(), reasons == [], if reasons == [] then "admitted" else Joined(reasons), Map(DigestOf, evidence)));
  }
}
