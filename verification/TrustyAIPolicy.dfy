/** The TrustyAI policy pack: the contract check, which derives the verdict of a metric again
    from the envelope, and the classifier that turns failing metrics into constraints. */
module TrustyAIPolicy {
  import opened Basics
  import opened Order
  import opened Json
  import opened Contracts
  import opened Cycle
  import opened EvalHub
  import opened EvalHubPolicy
  import opened TrustyAI

  // ----- The contract check -----

  /** Integers count as numbers, booleans do not. */
  function Number(j: Json): Option<real> {
    match j
    case JInt(i) => Some(i as real)
    case JReal(r) => Some(r)
    case _ => None
  }

  function IdentityProblem(split: string -> Url, e: Envelope, k: Kind): Option<string> {
    if Get(e.extensions, RevisionKey()) != JStr(ServiceRevision()) then Some("unpinned TrustyAI API revision")
    else if Get(e.extensions, KindKey()) != JStr(KindText(k)) then Some("TrustyAI metric kind does not match schema")
    else if Get(e.extensions, FamilyKey()) != JStr(Family(k)) then Some("TrustyAI metric family does not match schema")
    else if Get(e.extensions, EndpointKey()) != JStr(Endpoint(k)) then Some("TrustyAI endpoint does not match schema")
    else if WithoutSlashes(split(e.metadata.producer).path) != Endpoint(k) then Some("TrustyAI producer path does not match schema")
    else if Get(e.extensions, ModelKey()) != JStr(e.subject.id) then Some("TrustyAI model identity mismatch")
    else None
  }

  predicate IsDigestText(j: Json) {
    j.JStr? && IsDigest(j.s)
  }

  function SourceProblem(e: Envelope): Option<string> {
    if Get(e.extensions, ModeKey()) != JStr("authenticated-compute-response") then Some("unsupported TrustyAI provenance mode")
    else if e.assurance.artifactUri.Some? then Some("TrustyAI compute response cannot claim immutable artifact provenance")
    else if !IsDigest(e.assurance.digest) then Some("invalid TrustyAI exchange digest")
    else if !IsDigestText(Get(e.extensions, RequestKey())) || !IsDigestText(Get(e.extensions, ResponseKey())) then
      Some("invalid TrustyAI request or response digest")
    else None
  }

  /** The verdict that the measurement itself supports, or what is wrong with it. */
  function Rederived(e: Envelope, k: Kind): Answer<bool> {
    var value := Number(e.measurement.value);
    if value.None? then Raise("TrustyAI measurement value is not numeric")
    else
      match ShapeOf(k)
      case PValueShape =>
        var threshold := Number(e.measurement.threshold);
        if threshold.None? || !(0.0 < threshold.value < 1.0) then Raise("TrustyAI p-value threshold is invalid")
        else if Number(Get(e.extensions, StatisticKey())).None? then Raise("TrustyAI drift statistic is missing")
        else Ok(value.value < threshold.value)
      case ThresholdShape =>
        var threshold := Number(e.measurement.threshold);
        if threshold.None? then Raise("TrustyAI drift threshold is invalid") else Ok(value.value > threshold.value)
      case RangeShape =>
        if !e.measurement.threshold.JNull? then Raise("TrustyAI fairness range cannot be flattened to one threshold")
        else
          var bounds := Get(e.extensions, BoundsKey());
          if !bounds.JObj? then Raise("TrustyAI fairness bounds are missing")
          else
            var lower, upper := Number(Get(bounds.fields, "lower")), Number(Get(bounds.fields, "upper"));
            if lower.None? || upper.None? || upper.value < lower.value then Raise("TrustyAI fairness bounds are invalid")
            else Ok(value.value < lower.value || value.value > upper.value)
  }

  function MeasurementProblem(e: Envelope, k: Kind): Option<string> {
    if e.measurement.name != MeasurementName(k) then Some("TrustyAI measurement name does not match schema")
    else if e.measurement.unit != Some(UnitOf(k)) then Some("TrustyAI measurement unit does not match schema")
    else if !e.measurement.status.Passed? && !e.measurement.status.Failed? then Some("TrustyAI metric verdict must be passed or failed")
    else
      var failed := Rederived(e, k);
      if failed.Raise? then Some(failed.exception)
      else if e.measurement.status != (if failed.value then Failed else Passed) then
        Some("TrustyAI measurement status does not match metric semantics")
      else None
  }

  function ContractProblem(split: string -> Url, e: Envelope): Option<string> {
    var k := BySchema(e.metadata.schemaUri);
    if k.None? then Some("unsupported TrustyAI metric schema")
    else if IdentityProblem(split, e, k.value).Some? then IdentityProblem(split, e, k.value)
    else if SourceProblem(e).Some? then SourceProblem(e)
    else MeasurementProblem(e, k.value)
  }

  // ----- The policy -----

  datatype MetricPolicy = MetricPolicy(split: string -> Url, prefix: string, minimum: real)

  predicate AdmitsMetric(p: MetricPolicy, e: Envelope, scope: Scope) {
    && AtOrBelow(p.split, e.metadata.producer, p.prefix) && e.scope == scope
    && ContractProblem(p.split, e).None? && e.assurance.confidence >= p.minimum
  }

  method EvaluateMetrics(p: MetricPolicy, evidence: seq<Envelope>, scope: Scope) returns (r: Answer<PolicyResult>)
    ensures r.Ok? <==> Distinct(Map(DigestOf, evidence))
    ensures r.Ok? ==>
      && (r.value.allowed <==> forall e :: e in evidence ==> AdmitsMetric(p, e, scope))
      && r.value.evidenceRefs == Map(DigestOf, evidence) && ValidPolicyResult(r.value)
  {
    hide AtOrBelow, ContractProblem, Says, Distinct;
    var reasons: seq<string> := [];
    for i := 0 to |evidence|
      invariant reasons == [] <==> forall k :: 0 <= k < i ==> AdmitsMetric(p, evidence[k], scope)
    {
      var e := evidence[i];
      if !AtOrBelow(p.split, e.metadata.producer, p.prefix) { reasons := reasons + [Says(e, "unexpected producer")]; }
      if e.scope != scope { reasons := reasons + [Says(e, "scope mismatch")]; }
      var problem := ContractProblem(p.split, e);
      if problem.Some? { reasons := reasons + [Says(e, problem.value)]; }
      if e.assurance.confidence < p.minimum { reasons := reasons + [Says(e, "confidence is below the policy floor")]; }
    }
    if !Distinct(Map(DigestOf, evidence)) {
      return Raise("ValidationError");
    }
    hide AdmitsMetric;
    assert reasons == [] ==> forall e :: e in evidence ==> AdmitsMetric(p, e, scope);
    assert (forall e :: e in evidence ==> AdmitsMetric(p, e, scope)) ==> forall k :: 0 <= k < |evidence| ==> AdmitsMetric(p, evidence[k], scope);
    r := Ok(PolicyResult("trustyai-service-evidence-v1alpha1", reasons == [],
                         if reasons == [] then "admitted" else Joined(reasons), Map(DigestOf, evidence)));
  }

  // ----- The classifier -----

  function RuntimeReview(): string { "io.github.jkershawrh.gcl.trustyai/runtime-review-required" }

  function RuntimeExpression(k: Kind, e: Envelope): Json {
    JObj(map["effect" := JStr("require-runtime-review"), "metric_family" := JStr(Family(k)), "metric_kind" := JStr(KindText(k)),
             "model_id" := JStr(e.subject.id), "status" := JStr("failed")])
  }

  function RuntimeConstraint(naming: Naming, scope: Scope, k: Kind, e: Envelope): Constraint {
    var identity := JObj(map["constraint" := JStr(RuntimeReview()), "scope" := ScopeJson(scope), "subject" := SubjectJson(e.subject),
                             "expression" := RuntimeExpression(k, e), "evidence_ref" := JStr(e.assurance.digest)]);
    Constraint(naming.uuid(Print(naming.repr, identity)), RuntimeReview(), true, RuntimeExpression(k, e), e.assurance.confidence,
               [e.assurance.digest])
  }

  function KindOfText(j: Json): Option<Kind> {
    if j == JStr(KindText(KSTest)) then Some(KSTest)
    else if j == JStr(KindText(CompareMeans)) then Some(CompareMeans)
    else if j == JStr(KindText(JensenShannon)) then Some(JensenShannon)
    else if j == JStr(KindText(MMD)) then Some(MMD)
    else if j == JStr(KindText(SPD)) then Some(SPD)
    else if j == JStr(KindText(DIR)) then Some(DIR)
    else None
  }

  /** The items that the classifier turns into constraints. */
  predicate Failing(e: Envelope) {
    BySchema(e.metadata.schemaUri).Some? && e.measurement.status.Failed?
  }

  function FailingItems(evidence: seq<Envelope>): seq<Envelope> {
    Filter(Failing, evidence)
  }

  function ItemConstraint(naming: Naming, scope: Scope, e: Envelope): Constraint {
    var k := KindOfText(Get(e.extensions, KindKey()));
    RuntimeConstraint(naming, scope, if k.Some? then k.value else KSTest, e)
  }

  function ItemConstraints(naming: Naming, scope: Scope): Envelope -> Constraint {
    (e: Envelope) => ItemConstraint(naming, scope, e)
  }

  /** One constraint for every failing item, in order; an item without a known kind raises. */
  method ClassifyMetrics(naming: Naming, evidence: seq<Envelope>, scope: Scope) returns (constraints: Answer<seq<Constraint>>)
    ensures constraints.Ok? <==> forall e :: e in evidence && Failing(e) ==> KindOfText(Get(e.extensions, KindKey())).Some?
    ensures constraints.Ok? ==> constraints.value == Map(ItemConstraints(naming, scope), FailingItems(evidence))
  {
    hide Failing, KindOfText, RuntimeConstraint, KindKey, Get;
    var found: seq<Constraint> := [];
    for i := 0 to |evidence|
      invariant found == Map(ItemConstraints(naming, scope), FailingItems(evidence[..i]))
      invariant forall k :: 0 <= k < i && Failing(evidence[k]) ==> KindOfText(Get(evidence[k].extensions, KindKey())).Some?
    {
      FilterSnoc(Failing, evidence, i);
      if Failing(evidence[i]) {
        var k := KindOfText(Get(evidence[i].extensions, KindKey()));
        if k.None? {
          assert evidence[i] in evidence;
          return Raise("KeyError");
        }
        found := found + [RuntimeConstraint(naming, scope, k.value, evidence[i])];
      }
    }
    assert evidence[..|evidence|] == evidence;
    constraints := Ok(found);
  }

  // ----- Adapter and policy agree -----

  lemma FixedExtensionsRead(k: Kind, model: string, requestDigest: string, responseDigest: string)
    ensures var x := FixedExtensions(k, model, requestDigest, responseDigest);
      && Get(x, RevisionKey()) == JStr(ServiceRevision()) && Get(x, EndpointKey()) == JStr(Endpoint(k))
      && Get(x, FamilyKey()) == JStr(Family(k)) && Get(x, KindKey()) == JStr(KindText(k)) && Get(x, ModelKey()) == JStr(model)
      && Get(x, ModeKey()) == JStr("authenticated-compute-response")
      && Get(x, RequestKey()) == JStr(requestDigest) && Get(x, ResponseKey()) == JStr(responseDigest)
  {
    KeyMarks();
    hide RevisionKey, BoundsKey, EndpointKey, FamilyKey, KindKey, ModelKey, ModeKey, RequestKey, ResponseKey;
    hide StatisticKey, KeyMark, ServiceRevision, Endpoint, Family, KindText;
  }

  lemma MetricExtensionsRead(k: Kind, model: string, requestDigest: string, responseDigest: string, r: MetricReading)
    ensures var x := MetricExtensions(k, model, requestDigest, responseDigest, r);
      && Get(x, RevisionKey()) == JStr(ServiceRevision()) && Get(x, EndpointKey()) == JStr(Endpoint(k))
      && Get(x, FamilyKey()) == JStr(Family(k)) && Get(x, KindKey()) == JStr(KindText(k)) && Get(x, ModelKey()) == JStr(model)
      && Get(x, ModeKey()) == JStr("authenticated-compute-response")
      && Get(x, RequestKey()) == JStr(requestDigest) && Get(x, ResponseKey()) == JStr(responseDigest)
      && (r.bounds.Some? ==> Get(x, BoundsKey()) == RangeJson(r.bounds.value))
      && (r.statistic.Some? ==> Get(x, StatisticKey()) == JReal(r.statistic.value))
  {
    KeyMarks();
    hide RevisionKey, BoundsKey, EndpointKey, FamilyKey, KindKey, ModelKey, ModeKey, RequestKey, ResponseKey;
    hide StatisticKey, KeyMark, ServiceRevision, Endpoint, Family, KindText, RangeJson, FixedExtensions;
    FixedExtensionsRead(k, model, requestDigest, responseDigest);
  }

  /** The verdict of the service, by the shape of its response. */
  ghost predicate UpstreamFailed(s: Service, k: Kind, request: map<string, Json>, response: Json)
    requires ReadingOf(s, k, request, response).Some?
  {
    match ShapeOf(k)
    case PValueShape => s.pValue(response).value.driftDetected
    case ThresholdShape =>
      if k.JensenShannon? then s.jensenShannon(response).value.driftDetected else s.threshold(response).value.driftDetected
    case RangeShape => s.fairness(response).value.outside
  }

  /** An envelope that carries a reading. */
  predicate Carries(e: Envelope, r: MetricReading) {
    && e.measurement.value == JReal(r.value)
    && e.measurement.threshold == (if r.threshold.Some? then JReal(r.threshold.value) else JNull)
    && e.measurement.status == (if r.failed then Failed else Passed)
    && (r.bounds.Some? ==> Get(e.extensions, BoundsKey()) == RangeJson(r.bounds.value))
    && (r.statistic.Some? ==> Get(e.extensions, StatisticKey()) == JReal(r.statistic.value))
  }

  lemma MetricCarries(s: Service, q: MetricRequest, request: map<string, Json>, response: Json)
    requires ReadingOf(s, q.kind, request, response).Some? && Get(request, "modelId").JStr?
    ensures Carries(MetricOf(s, q, request, response), ReadingOf(s, q.kind, request, response).value)
  {
    hide CanonicalDigest, MetricExtensions, KindText, Rebuilt, Schema, MeasurementName, UnitOf, Suffix;
    hide ReadingOf, StatisticKey, BoundsKey, Get, RangeJson;
    var r := ReadingOf(s, q.kind, request, response).value;
    MetricExtensionsRead(q.kind, Get(request, "modelId").s, CanonicalDigest(s.hash, JObj(request)), CanonicalDigest(s.hash, response), r);
  }

  lemma CarriedPValue(s: Service, k: Kind, request: map<string, Json>, response: Json, e: Envelope)
    requires ShapeOf(k).PValueShape? && ReadingOf(s, k, request, response).Some?
    requires Carries(e, ReadingOf(s, k, request, response).value)
    ensures Rederived(e, k) == Ok(UpstreamFailed(s, k, request, response))
    ensures UpstreamFailed(s, k, request, response) == ReadingOf(s, k, request, response).value.failed
  {
    hide StatisticKey, BoundsKey, Get, RangeJson, RequestedStatistic, MetricName, Decisive, ShapeOf;
  }

  lemma CarriedThreshold(s: Service, k: Kind, request: map<string, Json>, response: Json, e: Envelope)
    requires ShapeOf(k).ThresholdShape? && ReadingOf(s, k, request, response).Some?
    requires Carries(e, ReadingOf(s, k, request, response).value)
    ensures Rederived(e, k) == Ok(UpstreamFailed(s, k, request, response))
    ensures UpstreamFailed(s, k, request, response) == ReadingOf(s, k, request, response).value.failed
  {
    hide StatisticKey, BoundsKey, Get, RangeJson, RequestedStatistic, MetricName, Decisive, ShapeOf;
  }

  lemma CarriedRange(s: Service, k: Kind, request: map<string, Json>, response: Json, e: Envelope)
    requires ShapeOf(k).RangeShape? && ReadingOf(s, k, request, response).Some?
    requires Carries(e, ReadingOf(s, k, request, response).value)
    ensures Rederived(e, k) == Ok(UpstreamFailed(s, k, request, response))
    ensures UpstreamFailed(s, k, request, response) == ReadingOf(s, k, request, response).value.failed
  {
    hide StatisticKey, BoundsKey, Get, RangeJson, RequestedStatistic, MetricName, Decisive, ShapeOf;
    RangeRead(ReadingOf(s, k, request, response).value.bounds.value);
  }

  predicate BoundsOf(e: Envelope, r: Option<FairnessResponse>) {
    var bounds := Get(e.extensions, BoundsKey());
    r.Some? && bounds.JObj? && Get(bounds.fields, "lower") == JReal(r.value.lower) && Get(bounds.fields, "upper") == JReal(r.value.upper)
  }

  /** What the envelope measures, by the kind of metric: the p-value against the significance level,
      the distance that the response decides by against its threshold, or the fairness metric,
      whose bounds are in an extension. */
  ghost predicate Measures(s: Service, k: Kind, response: Json, m: Measurement) {
    match k
    case JensenShannon =>
      var r := s.jensenShannon(response);
      && r.Some? && m.threshold == JReal(r.value.threshold)
      && m.value == if r.value.byDistance then JReal(r.value.distance) else JReal(r.value.divergence)
    case MMD =>
      var r := s.threshold(response);
      r.Some? && m.value == JReal(r.value.value) && m.threshold == JReal(r.value.threshold)
    case SPD => MeasuresRange(s, response, m)
    case DIR => MeasuresRange(s, response, m)
    case _ =>
      var r := s.pValue(response);
      r.Some? && m.value == JReal(r.value.pValue) && m.threshold == JReal(r.value.alpha)
  }

  ghost predicate MeasuresRange(s: Service, response: Json, m: Measurement) {
    var r := s.fairness(response);
    r.Some? && m.value == JReal(r.value.value) && m.threshold == JNull
  }

  lemma MetricMeasurement(s: Service, q: MetricRequest, request: map<string, Json>, response: Json)
    requires ReadingOf(s, q.kind, request, response).Some? && Get(request, "modelId").JStr?
    ensures Measures(s, q.kind, response, MetricOf(s, q, request, response).measurement)
    ensures q.kind.SPD? || q.kind.DIR? ==> BoundsOf(MetricOf(s, q, request, response), s.fairness(response))
  {
    hide MetricOf, Get, BoundsKey, StatisticKey, RangeJson, RequestedStatistic, MetricName;
    MetricCarries(s, q, request, response);
    if q.kind.SPD? || q.kind.DIR? {
      RangeRead(ReadingOf(s, q.kind, request, response).value.bounds.value);
    }
  }

  /** The digest of the complete exchange identifies the evidence; the request is what caused it. */
  lemma MetricIdentity(s: Service, q: MetricRequest, request: map<string, Json>, response: Json)
    requires TrustedService(s) && ReadingOf(s, q.kind, request, response).Some? && Get(request, "modelId").JStr?
    ensures var e := MetricOf(s, q, request, response); var hex := e.assurance.digest[|"sha256:"|..];
      && IsDigest(e.assurance.digest)
      && e.assurance.digest == s.hash.sha(Print(s.hash.repr,
           JObj(map["api_revision" := JStr(ServiceRevision()), "metric_kind" := JStr(KindText(q.kind)),
                    "request" := JObj(request), "response" := response])))
      && e.metadata.id == "trustyai:" + KindText(q.kind) + ":" + hex[..32]
      && e.metadata.correlationId == (if q.correlationId.Some? && q.correlationId.value != "" then q.correlationId.value
                                      else "trustyai:" + q.scope.tenant + ":" + e.subject.id + ":" + hex[..16])
      && e.metadata.causationId == Some(s.hash.sha(Print(s.hash.repr, JObj(request))))
      && e.scope == q.scope && e.assurance.confidence == q.confidence && e.subject.version == q.modelVersion
  {
    hide Print, KindText, ServiceRevision, MetricExtensions, Rebuilt, Schema, MeasurementName, UnitOf, ReadingOf, Get;
    DigestWellFormed(s, Exchange(q.kind, request, response));
    SuffixOf(CanonicalDigest(s.hash, Exchange(q.kind, request, response)), 32);
    SuffixOf(CanonicalDigest(s.hash, Exchange(q.kind, request, response)), 16);
    hide IsDigest, TrustedService, Suffix;
  }

  lemma SuffixOf(digest: string, n: nat)
    requires IsDigest(digest) && n <= 64
    ensures |digest| == |"sha256:"| + 64 && Suffix(digest, n) == digest[|"sha256:"|..][..n]
  {
    assert digest[..7] == "sha256:";
  }

  /** What the policy derives from the envelope is the verdict of the service. */
  lemma VerdictRederived(s: Service, q: MetricRequest, request: map<string, Json>, response: Json)
    requires ReadingOf(s, q.kind, request, response).Some? && Get(request, "modelId").JStr?
    ensures var e := MetricOf(s, q, request, response);
      && Rederived(e, q.kind) == Ok(UpstreamFailed(s, q.kind, request, response))
      && (e.measurement.status.Failed? <==> UpstreamFailed(s, q.kind, request, response))
      && (e.measurement.status.Passed? <==> !UpstreamFailed(s, q.kind, request, response))
  {
    hide MetricOf, Rederived, UpstreamFailed, ReadingOf, Get, BoundsKey, StatisticKey, RangeJson;
    MetricCarries(s, q, request, response);
    var e := MetricOf(s, q, request, response);
    match ShapeOf(q.kind)
    case PValueShape => CarriedPValue(s, q.kind, request, response, e);
    case ThresholdShape => CarriedThreshold(s, q.kind, request, response, e);
    case RangeShape => CarriedRange(s, q.kind, request, response, e);
  }

  lemma RangeRead(b: (real, real))
    ensures RangeJson(b).JObj? && Get(RangeJson(b).fields, "lower") == JReal(b.0) && Get(RangeJson(b).fields, "upper") == JReal(b.1)
  {
    assert "lower" != "upper";
  }

  lemma IdentityKept(s: Service, q: MetricRequest, request: map<string, Json>, response: Json)
    requires TrustedService(s) && AcceptableExchange(s, q, request, response)
    ensures var e := MetricOf(s, q, request, response);
      IdentityProblem(s.split, e, q.kind).None? && SourceProblem(e).None?
  {
    hide CanonicalDigest, MetricExtensions, KindText, Schema, MeasurementName, UnitOf, MetricName, Suffix;
    hide ReadingOf, IsDigest, RevisionKey, BoundsKey, EndpointKey, FamilyKey, KindKey, ModelKey, ModeKey;
    hide RequestKey, ResponseKey, StatisticKey, Get, ServiceRevision, Endpoint, Family, CleanModelId;
    hide MatchingMetric, ValidEnvelope, TrustedService, Exchange;
    var r := ReadingOf(s, q.kind, request, response).value;
    MetricExtensionsRead(q.kind, Get(request, "modelId").s, CanonicalDigest(s.hash, JObj(request)), CanonicalDigest(s.hash, response), r);
    DigestWellFormed(s, JObj(request));
    DigestWellFormed(s, response);
    DigestWellFormed(s, Exchange(q.kind, request, response));
    SourceRebuilt(s, q);
  }

  lemma DigestWellFormed(s: Service, j: Json)
    requires TrustedService(s)
    ensures IsDigest(CanonicalDigest(s.hash, j))
  {
    hide IsDigest, Print;
  }

  lemma SourceRebuilt(s: Service, q: MetricRequest)
    requires TrustedService(s) && MatchingSource(s, q)
    ensures WithoutSlashes(s.split(Rebuilt(s, q.sourceUrl)).path) == Endpoint(q.kind)
  {
    hide IsDigest, Endpoint, Rebuilt;
    SlashesGone(s.split(q.sourceUrl).path);
  }

  lemma {:induction false} SlashesGone(t: string)
    ensures WithoutSlashes(WithoutSlashes(t)) == WithoutSlashes(t)
  {
    if t != "" && t[|t| - 1] == '/' {
      SlashesGone(t[..|t| - 1]);
    }
  }

  /** For all six metrics: the policy finds nothing wrong with what the adapter normalized, its
      status is the verdict that the policy derives again, and that is the verdict of the service. */
  lemma AdapterKeepsContract(s: Service, q: MetricRequest, request: map<string, Json>, response: Json)
    requires TrustedService(s) && AcceptableExchange(s, q, request, response)
    ensures var e := MetricOf(s, q, request, response);
      && ContractProblem(s.split, e).None?
      && Rederived(e, q.kind) == Ok(UpstreamFailed(s, q.kind, request, response))
      && (e.measurement.status.Failed? <==> UpstreamFailed(s, q.kind, request, response))
      && (Failing(e) <==> UpstreamFailed(s, q.kind, request, response))
  {
    hide TrustedService, IdentityProblem, SourceProblem, Rederived, Schema, ReadingOf, UpstreamFailed;
    hide MeasurementName, UnitOf, CanonicalDigest, MetricExtensions, KindText, Rebuilt, Suffix, CleanModelId;
    hide MatchingMetric, ValidEnvelope, BySchema, Get, MatchingSource, Exchange;
    SchemaNamesContract(q.kind);
    IdentityKept(s, q, request, response);
    VerdictRederived(s, q, request, response);
  }

  /** The evidence speaks for the model named in the request, from the observation on for exactly
      the requested time, and its producer is the endpoint of the metric. */
  lemma MetricWindow(s: Service, q: MetricRequest, request: map<string, Json>, response: Json, t: Instant)
    requires TrustedService(s) && AcceptableExchange(s, q, request, response)
    ensures var e := MetricOf(s, q, request, response);
      && (FreshAt(e, t) <==> q.observedAt <= t < q.observedAt + q.validity)
      && JStr(e.subject.id) == Get(request, "modelId")
      && WithoutSlashes(s.split(e.metadata.producer).path) == Endpoint(q.kind)
  {
    hide CanonicalDigest, MetricExtensions, KindText, Schema, MeasurementName, UnitOf, Suffix, ReadingOf, Get, Rebuilt;
    hide CleanModelId, MatchingMetric, ValidEnvelope, TrustedService, Exchange, MatchingSource;
    SourceRebuilt(s, q);
  }

  lemma KindReadBack(k: Kind)
    ensures KindOfText(JStr(KindText(k))) == Some(k)
  {
    assert |KindText(KSTest)| == 12 && |KindText(CompareMeans)| == 18 && |KindText(JensenShannon)| == 19;
    assert |KindText(MMD)| == 9 && |KindText(SPD)| == 12 && |KindText(DIR)| == 12;
    assert KindText(KSTest)[0] == 'd' && KindText(SPD)[9] == 's' && KindText(DIR)[9] == 'd' && KindText(SPD)[0] == 'f' && KindText(DIR)[0] == 'f';
  }

  /** The expression asks for a review of the model, for a failed metric of the kind. */
  predicate Asks(expression: Json, k: Kind, model: string) {
    && expression.JObj? && Get(expression.fields, "effect") == JStr("require-runtime-review")
    && Get(expression.fields, "metric_family") == JStr(if k in {SPD, DIR} then "fairness" else "drift")
    && Get(expression.fields, "metric_kind") == JStr(KindText(k)) && Get(expression.fields, "model_id") == JStr(model)
    && Get(expression.fields, "status") == JStr("failed")
  }

  /** One constraint, hard, citing the envelope alone, with its confidence. */
  predicate OnlyConstraint(constraints: seq<Constraint>, k: Kind, e: Envelope) {
    && |constraints| == 1 && constraints[0].hard && constraints[0].evidenceRefs == [e.assurance.digest]
    && constraints[0].confidence == e.assurance.confidence && Asks(constraints[0].expression, k, e.subject.id)
  }

  lemma RuntimeConstraintAsks(naming: Naming, scope: Scope, k: Kind, e: Envelope)
    ensures OnlyConstraint([RuntimeConstraint(naming, scope, k, e)], k, e)
  {
    hide KindText, RuntimeReview;
  }

  /** From one normalized envelope the classifier draws exactly one constraint, hard and citing its
      digest, if the service found the metric failing, and none otherwise. */
  lemma OneConstraintIffFailing(s: Service, q: MetricRequest, request: map<string, Json>, response: Json, naming: Naming, scope: Scope)
    requires TrustedService(s) && AcceptableExchange(s, q, request, response)
    ensures var e := MetricOf(s, q, request, response);
      var constraints := Map(ItemConstraints(naming, scope), FailingItems([e]));
      && KindOfText(Get(e.extensions, KindKey())) == Some(q.kind)
      && if UpstreamFailed(s, q.kind, request, response) then OnlyConstraint(constraints, q.kind, e) else constraints == []
  {
    hide TrustedService, ReadingOf, UpstreamFailed, MeasurementName, UnitOf, Failing, KindOfText, OnlyConstraint;
    hide RuntimeConstraint, CanonicalDigest, MetricExtensions, KindText, Rebuilt, Suffix, CleanModelId;
    hide MatchingMetric, ValidEnvelope, Schema, Get, MatchingSource, Exchange, KindKey;
    var e := MetricOf(s, q, request, response);
    AdapterKeepsContract(s, q, request, response);
    MetricExtensionsRead(q.kind, Get(request, "modelId").s, CanonicalDigest(s.hash, JObj(request)), CanonicalDigest(s.hash, response),
                         ReadingOf(s, q.kind, request, response).value);
    KindReadBack(q.kind);
    FilterOne(Failing, e);
    RuntimeConstraintAsks(naming, scope, q.kind, e);
    if Failing(e) {
      assert Map(ItemConstraints(naming, scope), [e]) == [RuntimeConstraint(naming, scope, q.kind, e)];
    }
  }
}
