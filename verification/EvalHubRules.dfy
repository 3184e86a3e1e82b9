/** The rules of the EvalHub policy, written out on the fields of an envelope as any producer may
    have filled them in, and that the policy admits exactly what follows the rules. */
module EvalHubRules {
  import opened Basics
  import opened Order
  import opened Json
  import opened Contracts
  import opened Cycle
  import opened EvalHub
  import opened EvalHubPolicy
  import opened EvalHubAgreement
  import opened EvalHubOci

  // ----- Provenance -----

  /** The evidence rests on the raw response: its digest is the assurance's, and no artifact is named. */
  ghost predicate RestsOnResponse(e: Envelope) {
    && Get(e.extensions, ProvenanceMode()) == JStr("authenticated-api-response")
    && Get(e.extensions, RawResponseDigest()) == JStr(e.assurance.digest) && IsDigest(e.assurance.digest)
    && (e.assurance.artifactUri == None || e.assurance.artifactUri == Some(""))
  }

  /** An object whose reference ends in its own well-formed digest. */
  ghost predicate PinnedEntry(entry: Json) {
    && entry.JObj?
    && exists place: string, digest: string :: PinnedTo(entry.fields, place, digest)
  }

  predicate PinnedTo(entry: map<string, Json>, place: string, digest: string) {
    && Get(entry, "digest") == JStr(digest) && Get(entry, "reference") == JStr(place + "@" + digest)
    && IsDigest(digest) && |place + "@" + digest| <= 2048 && forall c :: c in place + "@" + digest ==> !IsSpace(c)
  }

  /** The evidence rests on pinned artifacts: on the only one, or on the manifest that lists them all. */
  ghost predicate RestsOnManifest(hash: Hashing, e: Envelope) {
    var manifest := Get(e.extensions, OciArtifacts());
    && Get(e.extensions, ProvenanceMode()) == JStr("oci-manifest")
    && manifest.JArr? && manifest.items != [] && (forall entry :: entry in manifest.items ==> PinnedEntry(entry))
    && if |manifest.items| == 1 then
         e.assurance.artifactUri.Some?
         && PinnedAs(manifest.items[0], e.assurance.digest, e.assurance.artifactUri.value)
       else
         e.assurance.artifactUri.None? && e.assurance.digest == hash.sha(Print(hash.repr, manifest))
  }

  predicate PinnedAs(entry: Json, digest: string, reference: string) {
    entry.JObj? && Get(entry.fields, "digest") == JStr(digest) && Get(entry.fields, "reference") == JStr(reference)
  }

  lemma EntryExact(entry: Json)
    ensures EntryProblem(entry).None? <==> PinnedEntry(entry)
  {
    hide IsDigest, IsSpace, Get;
    if EntryProblem(entry).None? {
      var digest, reference := Get(entry.fields, "digest").s, Get(entry.fields, "reference").s;
      var place := reference[..|reference| - |"@" + digest|];
      assert reference == place + ("@" + digest) == place + "@" + digest;
      assert PinnedTo(entry.fields, place, digest);
    }
    if PinnedEntry(entry) {
      var place, digest :| PinnedTo(entry.fields, place, digest);
      assert place + "@" + digest == place + ("@" + digest);
      assert (place + ("@" + digest))[|place|..] == "@" + digest;
    }
  }

  /** The provenance check passes exactly in these two cases. */
  lemma ProvenanceExact(hash: Hashing, e: Envelope)
    ensures ProvenanceProblem(hash, e).None? <==> RestsOnResponse(e) || RestsOnManifest(hash, e)
  {
    hide IsDigest, Get, ProvenanceMode, RawResponseDigest, OciArtifacts, EntryProblem, PinnedEntry, Print;
    assert "oci-manifest" != "authenticated-api-response";
    var manifest := Get(e.extensions, OciArtifacts());
    if manifest.JArr? {
      NoEntryProblem(manifest.items);
      forall entry | entry in manifest.items ensures EntryProblem(entry).None? <==> PinnedEntry(entry) {
        EntryExact(entry);
      }
      if manifest.items != [] && PinnedEntry(manifest.items[0]) {
        PinnedIsObject(manifest.items[0]);
      }
      assert manifest.items != [] ==> manifest.items[0] in manifest.items;
    }
  }

  lemma PinnedIsObject(entry: Json)
    requires PinnedEntry(entry)
    ensures entry.JObj?
  {
  }

  lemma NoArtifactNamed(lib: Libraries, raw: Json, job: Job, request: Request)
    requires !(Benchmarks(job) != [] && FullyReferenced(Benchmarks(job)))
    ensures Normalized(lib, raw, job, request).assurance.artifactUri == None
  {
    hide CanonicalDigest, Artifacts, ExtensionsOf, Ordered, SchemaUri, FullyReferenced, OutcomeOf;
  }

  /** A normalized envelope whose assurance is replaced fails the check unless nothing changed. The
      one exception: where no artifact is named, naming the empty one passes as well. */
  lemma TamperedAssurance(lib: Libraries, raw: Json, job: Job, request: Request, a: Assurance)
    requires Trusted(lib)
    ensures var e := Normalized(lib, raw, job, request);
      ProvenanceProblem(lib.hash, e.(assurance := a)).None?
      <==> a.digest == e.assurance.digest
           && (a.artifactUri == e.assurance.artifactUri
               || (a.artifactUri == Some("") && !(Benchmarks(job) != [] && FullyReferenced(Benchmarks(job)))))
  {
    hide Normalized, ProvenanceProblem, Get, ProvenanceMode, RawResponseDigest, OciArtifacts, FullyReferenced, Trusted;
    hide PinnedEntry, Print, IsDigest;
    var e := Normalized(lib, raw, job, request);
    NormalizedHasProvenance(lib, raw, job, request);
    ModeOf(lib, raw, job, request);
    ProvenanceExact(lib.hash, e);
    ProvenanceExact(lib.hash, e.(assurance := a));
    if !(Benchmarks(job) != [] && FullyReferenced(Benchmarks(job))) {
      NoArtifactNamed(lib, raw, job, request);
    }
    assert "oci-manifest" != "authenticated-api-response";
  }

  // ----- Producers -----

  /** What is left of a text without its trailing slashes. */
  ghost predicate Root(s: string, root: string) {
    |root| <= |s| && root == s[..|root|] && (root != "" ==> root[|root| - 1] != '/')
    && forall k :: |root| <= k < |s| ==> s[k] == '/'
  }

  lemma {:induction false} RootExact(s: string, root: string)
    ensures WithoutSlashes(s) == root <==> Root(s, root)
  {
    if s != "" && s[|s| - 1] == '/' {
      var front := s[..|s| - 1];
      RootExact(front, root);
      if Root(s, root) {
        assert root != "" ==> root[|root| - 1] == s[|root| - 1];
        assert |root| < |s| && root == front[..|root|];
      }
      if Root(front, root) {
        assert s[..|root|] == front[..|root|];
      }
    } else {
      assert s[..|s|] == s;
      assert Root(s, root) ==> |root| == |s|;
    }
  }

  /** The producer has the scheme and host of the prefix, and its path is that of the prefix or
      continues it behind a slash. */
  ghost predicate Under(split: string -> Url, producer: string, prefix: string) {
    exists base, root :: Root(prefix, base) && UnderAt(split, producer, base + "/", root)
  }

  ghost predicate UnderAt(split: string -> Url, producer: string, base: string, root: string) {
    && Root(split(base).path, root)
    && split(producer).scheme == split(base).scheme && split(producer).netloc == split(base).netloc
    && (split(producer).path == root || root + "/" <= split(producer).path)
  }

  lemma UnderExact(split: string -> Url, producer: string, prefix: string)
    ensures AtOrBelow(split, producer, prefix) <==> Under(split, producer, prefix)
  {
    hide WithoutSlashes, Root;
    var base := WithoutSlashes(prefix);
    RootExact(prefix, base);
    var root := WithoutSlashes(split(base + "/").path);
    RootExact(split(base + "/").path, root);
    if AtOrBelow(split, producer, prefix) {
      assert UnderAt(split, producer, base + "/", root);
    }
    if b, r :| Root(prefix, b) && UnderAt(split, producer, b + "/", r) {
      RootExact(prefix, b);
      RootExact(split(b + "/").path, r);
    }
  }

  // ----- Results -----

  predicate EmptyValue(j: Json) {
    j in {JNull, JBool(false), JInt(0), JReal(0.0), JStr(""), JArr([]), JObj(map[])}
  }

  /** The envelope is about its job, the job has ended, and it is reported as an execution exactly
      if it did not get to a result; otherwise it has a test. */
  ghost predicate ReportsResult(e: Envelope) {
    exists job, state, kind :: Reports(e, job, state, kind)
  }

  predicate Reports(e: Envelope, job: string, state: string, kind: string) {
    && Get(e.extensions, JobId()) == JStr(job) && e.metadata.id == "evalhub:" + job
    && Get(e.extensions, JobStateKey()) == JStr(state) && state in ["completed", "partially_failed", "failed", "cancelled"]
    && Get(e.extensions, ResultKind()) == JStr(kind) && kind in ["collection", "job-result", "job-execution"]
    && (kind == "job-execution" <==> state in ["failed", "cancelled"])
    && (kind != "job-execution" ==> !EmptyValue(Get(e.extensions, JobTestPresent())))
  }

  lemma TruthyExact(j: Json)
    ensures Truthy(j) <==> !EmptyValue(j)
  {
  }

  lemma ResultExact(e: Envelope)
    ensures ConsistentResult(e) <==> ReportsResult(e)
  {
    hide Get, JobId, JobStateKey, JobTestPresent, ResultKind, Truthy, EmptyValue;
    var job, state, kind := Get(e.extensions, JobId()), Get(e.extensions, JobStateKey()), Get(e.extensions, ResultKind());
    TruthyExact(Get(e.extensions, JobTestPresent()));
    if ConsistentResult(e) {
      assert Reports(e, job.s, state.s, kind.s);
    }
  }

  // ----- Content verification -----

  /** Artifact and verification name the same benchmark, index, provider, reference and digest. */
  predicate SameArtifact(a: Json, v: Json) {
    && a.JObj? && v.JObj?
    && Get(a.fields, "benchmark_id").JStr? && Get(v.fields, "benchmark_id") == Get(a.fields, "benchmark_id")
    && Get(a.fields, "benchmark_index").JInt? && Get(v.fields, "benchmark_index") == Get(a.fields, "benchmark_index")
    && Get(a.fields, "provider_id").JStr? && Get(v.fields, "provider_id") == Get(a.fields, "provider_id")
    && Get(a.fields, "reference").JStr? && Get(v.fields, "reference") == Get(a.fields, "reference")
    && Get(a.fields, "digest").JStr? && Get(v.fields, "digest") == Get(a.fields, "digest")
  }

  lemma SameArtifactExact(a: Json, v: Json)
    ensures SameArtifact(a, v) <==> IdentityOfEntry(a).Some? && IdentityOfEntry(v) == IdentityOfEntry(a)
  {
    hide Get;
  }

  /** The verification is of the artifact, by a trusted verifier, with content, and in time. */
  ghost predicate VerifiedBy(codec: Codec, trusted: set<string>, e: Envelope, a: Json, v: Json) {
    && SameArtifact(a, v)
    && var receipt := codec.load(Get(v.fields, "receipt"));
       && receipt.Some? && receipt.value.verifier in trusted && receipt.value.content != []
       && JStr(receipt.value.artifactUri) == Get(a.fields, "reference")
       && JStr(receipt.value.artifactDigest) == Get(a.fields, "digest")
       && e.metadata.observedAt <= receipt.value.verifiedAt <= e.metadata.expiresAt
  }

  ghost predicate PairedOneToOne(codec: Codec, trusted: set<string>, e: Envelope, a: seq<Json>, v: seq<Json>, partner: seq<nat>) {
    && |partner| == |a| == |v| && Distinct(partner)
    && forall i :: 0 <= i < |a| ==> partner[i] < |v| && VerifiedBy(codec, trusted, e, a[i], v[partner[i]])
  }

  /** Artifacts without repetition, each with a verification of its own, and no other verifications. */
  ghost predicate EachVerified(codec: Codec, trusted: set<string>, e: Envelope) {
    var artifacts, verifications := Get(e.extensions, OciArtifacts()), Get(e.extensions, OciVerifications());
    && artifacts.JArr? && artifacts.items != [] && verifications.JArr?
    && (forall i, j :: 0 <= i < j < |artifacts.items| ==> !SameArtifact(artifacts.items[i], artifacts.items[j]))
    && exists partner :: PairedOneToOne(codec, trusted, e, artifacts.items, verifications.items, partner)
  }

  lemma VerifiedExact(codec: Codec, trusted: set<string>, e: Envelope, a: Json, v: Json)
    ensures VerifiedBy(codec, trusted, e, a, v) <==> BoundTo(codec, trusted, e, a, v)
  {
    hide Get;
    SameArtifactExact(a, v);
  }

  lemma PairingExact(codec: Codec, trusted: set<string>, e: Envelope, a: seq<Json>, v: seq<Json>, partner: seq<nat>)
    ensures PairedOneToOne(codec, trusted, e, a, v, partner) <==> Pairing(codec, trusted, e, a, v, partner)
  {
    hide VerifiedBy, BoundTo, Distinct;
    if |partner| == |a| {
      forall i | 0 <= i < |a| && partner[i] < |v|
        ensures VerifiedBy(codec, trusted, e, a[i], v[partner[i]]) <==> BoundTo(codec, trusted, e, a[i], v[partner[i]])
      {
        VerifiedExact(codec, trusted, e, a[i], v[partner[i]]);
      }
    }
  }

  lemma RepetitionExact(a: seq<Json>)
    requires AllIdentified(a)
    ensures Distinct(Identities(a)) <==> forall i, j :: 0 <= i < j < |a| ==> !SameArtifact(a[i], a[j])
  {
    hide IdentityOfEntry, SameArtifact;
    var ids := Identities(a);
    forall i, j | 0 <= i < j < |a| ensures ids[i] == ids[j] <==> SameArtifact(a[i], a[j]) {
      assert ids[i] in ids && ids[j] in ids;
      SameArtifactExact(a[i], a[j]);
    }
  }

  lemma StrictExact(codec: Codec, trusted: set<string>, e: Envelope)
    ensures VerificationProblem(codec, trusted, e).None? <==> EachVerified(codec, trusted, e)
  {
    hide VerificationProblem, Get, OciArtifacts, OciVerifications, Distinct, SameArtifact, IdentityOfEntry, VerifiedBy, BoundTo;
    hide Identities;
    StrictAdmission(codec, trusted, e);
    var artifacts, verifications := Get(e.extensions, OciArtifacts()), Get(e.extensions, OciVerifications());
    if artifacts.JArr? && verifications.JArr? {
      var a, v := artifacts.items, verifications.items;
      if partner :| Pairing(codec, trusted, e, a, v, partner) {
        PairingExact(codec, trusted, e, a, v, partner);
        PairedAreIdentified(codec, trusted, e, a, v, partner);
        RepetitionExact(a);
      }
      if partner :| PairedOneToOne(codec, trusted, e, a, v, partner) {
        PairingExact(codec, trusted, e, a, v, partner);
      }
    }
  }

  lemma PairedAreIdentified(codec: Codec, trusted: set<string>, e: Envelope, a: seq<Json>, v: seq<Json>, partner: seq<nat>)
    requires Pairing(codec, trusted, e, a, v, partner)
    ensures AllIdentified(a)
  {
    hide IdentityOfEntry, Get, Distinct;
    forall x | x in Identities(a) ensures x.Some? {
      var i :| 0 <= i < |a| && Identities(a)[i] == x;
      assert BoundTo(codec, trusted, e, a[i], v[partner[i]]);
    }
  }

  // ----- The policy -----

  /** All that the policy asks of an envelope. */
  ghost predicate FollowsRules(p: Policy, e: Envelope, scope: Scope) {
    && e.metadata.schemaUri == SchemaUri() && Under(p.split, e.metadata.producer, p.prefix) && e.scope == scope
    && Get(e.extensions, ApiRevision()) == JStr(Revision()) && e.assurance.confidence >= p.minimum
    && ReportsResult(e)
    && (RestsOnResponse(e) || RestsOnManifest(p.hash, e))
    && (p.requireOci && Get(e.extensions, ResultKind()) != JStr("job-execution") ==> RestsOnManifest(p.hash, e))
    && (p.requireVerified ==> EachVerified(p.codec, p.trusted, e))
  }

  /** The policy admits an envelope, of whatever producer, exactly if it follows the rules. */
  lemma AdmitsExactly(p: Policy, e: Envelope, scope: Scope)
    ensures Admits(p, e, scope) <==> FollowsRules(p, e, scope)
  {
    hide AtOrBelow, Under, ConsistentResult, ReportsResult, ProvenanceProblem, VerificationProblem, EachVerified;
    hide SchemaUri, Revision, ApiRevision, ResultKind, ProvenanceMode, Get;
    UnderExact(p.split, e.metadata.producer, p.prefix);
    ResultExact(e);
    ProvenanceExact(p.hash, e);
    StrictExact(p.codec, p.trusted, e);
    ModesDiffer(p.hash, e);
    hide RestsOnResponse, RestsOnManifest;
  }

  lemma ModesDiffer(hash: Hashing, e: Envelope)
    ensures RestsOnManifest(hash, e) ==> Get(e.extensions, ProvenanceMode()) == JStr("oci-manifest")
    ensures RestsOnResponse(e) ==> Get(e.extensions, ProvenanceMode()) != JStr("oci-manifest")
  {
    assert "oci-manifest" != "authenticated-api-response";
    hide ProvenanceMode, Get, PinnedEntry, Print, IsDigest;
  }
}
