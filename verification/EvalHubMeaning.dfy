/** What the EvalHub adapter takes from a job and writes into the envelope, field by field. */
module EvalHubMeaning {
  import opened Basics
  import opened Order
  import opened Json
  import opened Contracts
  import opened Cycle
  import opened EvalHub
  import opened EvalHubPolicy

  // ----- Artifacts -----

  /** A place, an at sign, and a well-formed digest, without white space and not too long. */
  predicate PinsDigest(reference: string, place: string, digest: string) {
    && reference == place + "@" + digest && IsDigest(digest) && |reference| <= 2048
    && forall c :: c in reference ==> !IsSpace(c)
  }

  lemma PinnedExactly(reference: string, digest: string)
    ensures PinnedReference(reference, digest) <==> exists place :: PinsDigest(reference, place, digest)
  {
    hide IsDigest, IsSpace;
    if PinnedReference(reference, digest) {
      var place := reference[..|reference| - |"@" + digest|];
      assert reference == place + ("@" + digest) == place + "@" + digest;
      assert PinsDigest(reference, place, digest);
    }
    if place :| PinsDigest(reference, place, digest) {
      assert reference == place + ("@" + digest);
      assert reference[|place|..] == "@" + digest;
    }
  }

  /** A benchmark has no artifact exactly if it gives neither reference nor digest; it has one
      exactly if it gives a reference that pins its digest; anything else is refused. */
  lemma ArtifactExactly(b: Benchmark)
    ensures var reference, digest := Get(b.artifacts, "oci_reference"), Get(b.artifacts, "oci_digest");
      && (ArtifactOf(b) == Ok(None) <==> reference == JNull && digest == JNull)
      && (ArtifactOf(b).Ok? && ArtifactOf(b).value.Some? <==>
            reference.JStr? && digest.JStr? && exists place :: PinsDigest(reference.s, place, digest.s))
      && (ArtifactOf(b).Ok? && ArtifactOf(b).value.Some? ==>
            ArtifactOf(b).value.value == Artifact(b.id, b.index as int, b.providerId, digest.s, reference.s))
  {
    hide IsDigest, HasSpace, EndsWith, Get, PinsDigest;
    var reference, digest := Get(b.artifacts, "oci_reference"), Get(b.artifacts, "oci_digest");
    if reference.JStr? && digest.JStr? {
      PinnedExactly(reference.s, digest.s);
      EndsNonEmpty(reference.s, digest.s);
    }
  }

  lemma EndsNonEmpty(s: string, digest: string)
    ensures EndsWith(s, "@" + digest) ==> s != ""
  {
    assert |"@" + digest| > 0;
  }

  // ----- Order -----

  /** By index, then by provider, then by id. */
  predicate IndexThenNames(a: Benchmark, b: Benchmark) {
    if a.index != b.index then a.index < b.index
    else if a.providerId != b.providerId then Precedes(a.providerId, b.providerId)
    else a.id == b.id || Precedes(a.id, b.id)
  }

  lemma BenchmarkOrder()
    ensures TotalPreorder(BenchmarkLe)
  {
    TupleOrder();
    hide LexLe;
  }

  lemma KeyedInOrder(a: Benchmark, b: Benchmark)
    requires BenchmarkLe(BenchmarkKey(a), BenchmarkKey(b))
    ensures IndexThenNames(a, b)
  {
    hide Precedes;
    StringLePrecedes(a.providerId, b.providerId);
    StringLePrecedes(a.id, b.id);
    if a.index == b.index {
      var x, y := [a.providerId, a.id], [b.providerId, b.id];
      assert x[1..] == [a.id] && y[1..] == [b.id];
      assert LexLe(x, y, StringLe);
      if a.providerId == b.providerId {
        assert LexLe([a.id], [b.id], StringLe);
      }
    }
  }

  /** The adapter goes through the benchmarks, all of them, by index, provider and id. */
  lemma OrderedExactly(benchmarks: seq<Benchmark>)
    ensures multiset(Ordered(benchmarks)) == multiset(benchmarks)
    ensures var ordered := Ordered(benchmarks);
      forall i, j :: 0 <= i < j < |ordered| ==> IndexThenNames(ordered[i], ordered[j])
  {
    hide BenchmarkLe, IndexThenNames;
    BenchmarkOrder();
    ByKeyPreorder(BenchmarkKey, BenchmarkLe);
    SortSorts(benchmarks, ByKey(BenchmarkKey, BenchmarkLe));
    hide Sort;
    var ordered := Ordered(benchmarks);
    forall i, j | 0 <= i < j < |ordered| ensures IndexThenNames(ordered[i], ordered[j]) {
      assert ByKey(BenchmarkKey, BenchmarkLe)(ordered[i], ordered[j]);
      KeyedInOrder(ordered[i], ordered[j]);
    }
  }

  // ----- Summaries and identity -----

  /** The summary of a benchmark, with its score, threshold and verdict if it was tested. */
  lemma SummarySays(b: Benchmark)
    ensures SummaryJson(b).JObj?
    ensures var f := SummaryJson(b).fields;
      && Get(f, "benchmark_id") == JStr(b.id) && Get(f, "benchmark_index") == JInt(b.index) && Get(f, "provider_id") == JStr(b.providerId)
      && (b.test.None? ==> "test" !in f)
      && (b.test.Some? ==> "test" in f && f["test"].JObj? && SaysTest(f["test"].fields, b.test.value))
  {
  }

  predicate SaysTest(f: map<string, Json>, t: BenchmarkTest) {
    Get(f, "primary_score") == JReal(t.primaryScore) && Get(f, "threshold") == JReal(t.threshold) && Get(f, "pass") == JBool(t.passed)
  }

  /** Whose evidence it is, about what, and how far it can be trusted. */
  lemma NormalizedIdentity(lib: Libraries, raw: Json, job: Job, request: Request)
    ensures var e := Normalized(lib, raw, job, request);
      && e.metadata.id == "evalhub:" + job.id && e.metadata.causationId == Some(job.id)
      && e.metadata.producer == request.sourceUrl && e.metadata.schemaUri == SchemaUri()
      && e.metadata.correlationId == (if request.correlationId.Some? && request.correlationId.value != "" then request.correlationId.value
                                      else "evalhub:" + job.tenant + ":" + job.id)
      && e.scope == request.scope && e.subject == Subject("model", job.model, request.modelVersion)
      && e.assurance.confidence == request.confidence
      && e.measurement.unit == (if OverallTest(job).Some? then Some("score") else None)
      && e.measurement.name == (if Aborted(job.state) then "evalhub.job.execution"
                                else if job.collection.Some? then "evalhub.collection.compliance" else "evalhub.job.compliance")
  {
    hide CanonicalDigest, Artifacts, ExtensionsOf, Ordered, ProvenanceOf, SchemaUri, FullyReferenced;
  }
}
