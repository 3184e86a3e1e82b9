/** The EvalHub classifier: which evaluation results demand a review before promotion. */
module EvalHubConstraints {
  import opened Basics
  import opened Json
  import opened Contracts
  import opened Cycle
  import opened EvalHub
  import opened EvalHubPolicy
  import opened EvalHubAgreement

  function PromotionReview(): string { "io.github.jkershawrh.gcl.evalhub/promotion-review-required" }

  /** Failed results and warnings of the pinned schema. */
  predicate Reviewable(e: Envelope) {
    e.metadata.schemaUri == SchemaUri() && (e.measurement.status.Failed? || e.measurement.status.Warning?)
  }

  /** The expression cites three extensions, which must be there. */
  predicate Citable(e: Envelope) {
    JobId() in e.extensions && JobStateKey() in e.extensions && ResultKind() in e.extensions
  }

  function PromotionExpression(e: Envelope): Json {
    var hard := e.measurement.status.Failed?;
    JObj(map["effect" := JStr(if hard then "block-promotion-pending-review" else "require-review-before-promotion"),
             "job_id" := Get(e.extensions, JobId()), "job_state" := Get(e.extensions, JobStateKey()),
             "measurement" := JStr(e.measurement.name), "result_kind" := Get(e.extensions, ResultKind()),
             "status" := JStr(if hard then "failed" else "warning")])
  }

  function PromotionConstraint(naming: Naming, scope: Scope, e: Envelope): Constraint {
    var identity := JObj(map["constraint" := JStr(PromotionReview()), "scope" := ScopeJson(scope), "subject" := SubjectJson(e.subject),
                             "expression" := PromotionExpression(e), "evidence_ref" := JStr(e.assurance.digest)]);
    Constraint(naming.uuid(Print(naming.repr, identity)), PromotionReview(), e.measurement.status.Failed?, PromotionExpression(e),
               e.assurance.confidence, [e.assurance.digest])
  }

  function PromotionConstraints(naming: Naming, scope: Scope): Envelope -> Constraint {
    (e: Envelope) => PromotionConstraint(naming, scope, e)
  }

  function ReviewableItems(evidence: seq<Envelope>): seq<Envelope> {
    Filter(Reviewable, evidence)
  }

  /** The loop: one constraint for every concerning item, in order. */
  method ClassifyPromotion(naming: Naming, evidence: seq<Envelope>, scope: Scope) returns (constraints: Answer<seq<Constraint>>)
    ensures constraints.Ok? <==> forall e :: e in evidence && Reviewable(e) ==> Citable(e)
    ensures constraints.Ok? ==> constraints.value == Map(PromotionConstraints(naming, scope), ReviewableItems(evidence))
  {
    hide Reviewable, Citable, PromotionConstraint;
    var found: seq<Constraint> := [];
    for i := 0 to |evidence|
      invariant found == Map(PromotionConstraints(naming, scope), ReviewableItems(evidence[..i]))
      invariant forall k :: 0 <= k < i && Reviewable(evidence[k]) ==> Citable(evidence[k])
    {
      FilterSnoc(Reviewable, evidence, i);
      if Reviewable(evidence[i]) {
        if !Citable(evidence[i]) {
          assert evidence[i] in evidence;
          return Raise("KeyError");
        }
        found := found + [PromotionConstraint(naming, scope, evidence[i])];
      }
    }
    assert evidence[..|evidence|] == evidence;
    constraints := Ok(found);
  }

  /** The results that nobody should promote without a review. */
  predicate NeedsReview(job: Job) {
    || Aborted(job.state) || job.state.PartiallyFailed?
    || (OverallTest(job).Some? && !OverallTest(job).value.passed)
  }

  /** The results that block promotion: the job failed, or completed without passing its test. */
  predicate Blocks(job: Job) {
    job.state.JobFailed? || (job.state.Completed? && OverallTest(job).Some? && !OverallTest(job).value.passed)
  }

  lemma StatusOfJob(lib: Libraries, raw: Json, job: Job, request: Request)
    requires TerminalState(job.state)
    ensures var e := Normalized(lib, raw, job, request);
      && (Reviewable(e) <==> NeedsReview(job)) && (e.measurement.status.Failed? <==> Blocks(job)) && Citable(e)
  {
    hide CanonicalDigest, Artifacts, Ordered, ProvenanceOf, SchemaUri, FullyReferenced, ArtifactsJson;
    hide SummaryJson, StateText, ApiRevision, BenchmarkTests, CollectionId, JobId, JobStateKey, JobTestPresent;
    hide OciArtifacts, ProvenanceMode, RawResponseDigest, ResultKind, Revision;
  }

  /** One constraint, citing the envelope alone, with its confidence; its expression names the job and
      blocks the promotion exactly if the constraint is hard. */
  predicate OnlyReview(constraints: seq<Constraint>, hard: bool, e: Envelope) {
    && |constraints| == 1 && constraints[0].hard == hard && constraints[0].evidenceRefs == [e.assurance.digest]
    && constraints[0].confidence == e.assurance.confidence && constraints[0].expression.JObj?
    && var said := constraints[0].expression.fields;
       && Get(said, "effect") == JStr(if hard then "block-promotion-pending-review" else "require-review-before-promotion")
       && Get(said, "job_id") == Get(e.extensions, JobId()) && Get(said, "job_state") == Get(e.extensions, JobStateKey())
       && Get(said, "result_kind") == Get(e.extensions, ResultKind()) && Get(said, "measurement") == JStr(e.measurement.name)
       && Get(said, "status") == JStr(if hard then "failed" else "warning")
  }

  lemma ConstraintReviews(naming: Naming, scope: Scope, e: Envelope)
    ensures OnlyReview([PromotionConstraint(naming, scope, e)], e.measurement.status.Failed?, e)
  {
    hide JobId, JobStateKey, ResultKind, PromotionReview;
  }

  /** From one normalized job the classifier draws exactly one constraint if the job needs a review,
      and none otherwise; it is hard if the job blocks promotion, and cites the job's digest. */
  lemma OneConstraintIffReviewNeeded(lib: Libraries, raw: Json, request: Request, naming: Naming, scope: Scope)
    requires Acceptable(lib, raw, request)
    ensures var job := lib.parse(raw).value; var e := Normalized(lib, raw, job, request);
      var constraints := Map(PromotionConstraints(naming, scope), ReviewableItems([e]));
      && Citable(e)
      && if NeedsReview(job) then OnlyReview(constraints, Blocks(job), e) else constraints == []
  {
    hide Reviewable, Citable, PromotionConstraint, OnlyReview, Normalized, NeedsReview, Blocks;
    hide ValidEnvelope, WellReferenced, AcceptableRequest, SaysUnfinished;
    var job := lib.parse(raw).value;
    var e := Normalized(lib, raw, job, request);
    StatusOfJob(lib, raw, job, request);
    FilterOne(Reviewable, e);
    ConstraintReviews(naming, scope, e);
    if Reviewable(e) {
      assert Map(PromotionConstraints(naming, scope), [e]) == [PromotionConstraint(naming, scope, e)];
    }
  }
}
