/** The TrustyAI Service adapter and its policy. The adapter turns an authenticated metric
    response into an envelope; the policy derives the verdict again from the envelope. */
module TrustyAI {
  import opened Basics
  import opened Order
  import opened Json
  import opened Contracts
  import opened Cycle
  import opened EvalHub
  import opened EvalHubPolicy

  // ----- The six contracts -----

  datatype Kind = KSTest | CompareMeans | JensenShannon | MMD | SPD | DIR

  datatype Shape = PValueShape | ThresholdShape | RangeShape

  function KindText(k: Kind): string {
    match k
    case KSTest => "drift-kstest"
    case CompareMeans => "drift-comparemeans"
    case JensenShannon => "drift-jensenshannon"
    case MMD => "drift-mmd"
    case SPD => "fairness-spd"
    case DIR => "fairness-dir"
  }

  function Endpoint(k: Kind): string {
    match k
    case KSTest => "/metrics/drift/kstest"
    case CompareMeans => "/metrics/drift/comparemeans"
    case JensenShannon => "/metrics/drift/jensenshannon"
    case MMD => "/metrics/drift/mmd"
    case SPD => "/metrics/group/fairness/spd"
    case DIR => "/metrics/group/fairness/dir"
  }

  function Family(k: Kind): string {
    if k.SPD? || k.DIR? then "fairness" else "drift"
  }

  function ShapeOf(k: Kind): Shape {
    match k
    case KSTest => PValueShape
    case CompareMeans => PValueShape
    case JensenShannon => ThresholdShape
    case MMD => ThresholdShape
    case SPD => RangeShape
    case DIR => RangeShape
  }

  function ServiceRevision(): string { "f78ca0e91cc24745fdaacb8f8ae893b059c03a0c" }

  function SourceRoot(): string {
    "https://raw.githubusercontent.com/trustyai-explainability/trustyai-service/" + ServiceRevision()
    + "/src/trustyai_service/endpoints/metrics"
  }

  function SourceFile(k: Kind): string {
    match k
    case KSTest => "/drift/kolmogorov_smirnov.py"
    case CompareMeans => "/drift/compare_means.py"
    case JensenShannon => "/drift/jensen_shannon.py"
    case MMD => "/drift/mmd.py"
    case SPD => "/fairness/group/spd.py"
    case DIR => "/fairness/group/dir.py"
  }

  function Schema(k: Kind): string { SourceRoot() + SourceFile(k) }

  function MeasurementName(k: Kind): string {
    match k
    case KSTest => "trustyai.drift.kstest.p_value"
    case CompareMeans => "trustyai.drift.comparemeans.p_value"
    case JensenShannon => "trustyai.drift.jensenshannon"
    case MMD => "trustyai.drift.mmd"
    case SPD => "trustyai.fairness.spd"
    case DIR => "trustyai.fairness.dir"
  }

  function UnitOf(k: Kind): string {
    match k
    case KSTest => "p_value"
    case CompareMeans => "p_value"
    case JensenShannon => "jensen_shannon"
    case MMD => "statistic"
    case SPD => "difference"
    case DIR => "ratio"
  }

  function MetricName(k: Kind): string {
    match k
    case KSTest => "KSTest"
    case CompareMeans => "CompareMeans"
    case JensenShannon => "JensenShannon"
    case MMD => "MMD"
    case SPD => "SPD"
    case DIR => "DIR"
  }

  function BySchema(uri: string): Option<Kind> {
    if uri == Schema(KSTest) then Some(KSTest)
    else if uri == Schema(CompareMeans) then Some(CompareMeans)
    else if uri == Schema(JensenShannon) then Some(JensenShannon)
    else if uri == Schema(MMD) then Some(MMD)
    else if uri == Schema(SPD) then Some(SPD)
    else if uri == Schema(DIR) then Some(DIR)
    else None
  }

  lemma FilesDiffer()
    ensures |SourceFile(KSTest)| == 28 && |SourceFile(CompareMeans)| == 23 && |SourceFile(JensenShannon)| == 24
    ensures |SourceFile(MMD)| == 13 && |SourceFile(SPD)| == 22 && |SourceFile(DIR)| == 22
    ensures SourceFile(SPD)[16] == 's' && SourceFile(DIR)[16] == 'd'
  {
  }

  /** The schema of a contract names the contract. */
  lemma SchemaNamesContract(k: Kind)
    ensures BySchema(Schema(k)) == Some(k)
  {
    FilesDiffer();
    hide SourceFile, SourceRoot;
    forall i: Kind, j: Kind | Schema(i) == Schema(j) ensures i == j {
      assert Schema(i)[|SourceRoot()|..] == SourceFile(i);
      assert Schema(j)[|SourceRoot()|..] == SourceFile(j);
    }
  }

  // ----- Names in the extensions -----

  function ServiceExtension(name: string): string { "org.trustyai.service/" + name }

  function RevisionKey(): string { ServiceExtension("api-revision") }
  function BoundsKey(): string { ServiceExtension("bounds") }
  function EndpointKey(): string { ServiceExtension("endpoint") }
  function FamilyKey(): string { ServiceExtension("metric-family") }
  function KindKey(): string { ServiceExtension("metric-kind") }
  function ModelKey(): string { ServiceExtension("model-id") }
  function ModeKey(): string { ServiceExtension("provenance-mode") }
  function RequestKey(): string { ServiceExtension("request-digest") }
  function ResponseKey(): string { ServiceExtension("response-digest") }
  function StatisticKey(): string { ServiceExtension("statistic") }

  function KeyMark(key: string): int {
    if |key| > 21 then |key| * 0x110000 + key[21] as int else 0
  }

  lemma KeyMarks()
    ensures KeyMark(RevisionKey()) == 33 * 0x110000 + 'a' as int
    ensures KeyMark(BoundsKey()) == 27 * 0x110000 + 'b' as int
    ensures KeyMark(EndpointKey()) == 29 * 0x110000 + 'e' as int
    ensures KeyMark(FamilyKey()) == 34 * 0x110000 + 'm' as int
    ensures KeyMark(KindKey()) == 32 * 0x110000 + 'm' as int
    ensures KeyMark(ModelKey()) == 29 * 0x110000 + 'm' as int
    ensures KeyMark(ModeKey()) == 36 * 0x110000 + 'p' as int
    ensures KeyMark(RequestKey()) == 35 * 0x110000 + 'r' as int
    ensures KeyMark(ResponseKey()) == 36 * 0x110000 + 'r' as int
    ensures KeyMark(StatisticKey()) == 30 * 0x110000 + 's' as int
  {
  }

  // ----- The responses and their validators -----

  datatype PValueResponse = PValueResponse(value: real, driftDetected: bool, pValue: real, alpha: real)

  datatype ThresholdResponse = ThresholdResponse(value: real, driftDetected: bool, threshold: real)

  datatype JensenShannonResponse = JensenShannonResponse(
    value: real, driftDetected: bool, threshold: real, byDistance: bool, distance: real, divergence: real)

  datatype FairnessResponse = FairnessResponse(name: string, value: real, lower: real, upper: real, outside: bool)

  predicate ValidPValue(r: PValueResponse) {
    && 0.0 <= r.pValue <= 1.0 && 0.0 < r.alpha < 1.0
    && r.driftDetected == (r.pValue < r.alpha)
  }

  predicate ValidThreshold(r: ThresholdResponse) {
    r.driftDetected == (r.value > r.threshold)
  }

  function Decisive(r: JensenShannonResponse): real {
    if r.byDistance then r.distance else r.divergence
  }

  predicate ValidJensenShannon(r: JensenShannonResponse) {
    r.driftDetected == (Decisive(r) > r.threshold)
  }

  predicate ValidFairness(r: FairnessResponse) {
    r.lower <= r.upper && r.outside == (r.value < r.lower || r.value > r.upper)
  }

  /** The libraries: hashing, URLs, and the parsers that read the fields of a response. */
  datatype Service = Service(
    hash: Hashing, split: string -> Url, unsplit: (string, string, string) -> string,
    pValue: Json -> Option<PValueResponse>, threshold: Json -> Option<ThresholdResponse>,
    jensenShannon: Json -> Option<JensenShannonResponse>, fairness: Json -> Option<FairnessResponse>)

  /** An absolute URL without trailing slashes, put together again. */
  function Rebuilt(s: Service, url: string): string {
    s.unsplit(s.split(url).scheme, s.split(url).netloc, WithoutSlashes(s.split(url).path))
  }

  /** Digests are well formed, and splitting a URL without user information that was put together
      finds its parts. */
  ghost predicate TrustedService(s: Service) {
    && (forall text :: IsDigest(s.hash.sha(text)))
    && (forall url :: AbsoluteHttp(s.split(url)) && Bare(s.split(url)) ==>
          s.split(Rebuilt(s, url)) == Url(s.split(url).scheme, s.split(url).netloc, WithoutSlashes(s.split(url).path), "", "", "", ""))
  }

  // ----- The reading of a response -----

  datatype MetricReading = MetricReading(value: real, threshold: Option<real>, failed: bool, statistic: Option<real>, bounds: Option<(real, real)>)

  /** What the request asked the Jensen-Shannon test to decide by. */
  predicate RequestedStatistic(request: map<string, Json>, byDistance: bool) {
    if "statistic" in request then request["statistic"] == JStr(if byDistance then "distance" else "divergence") else byDistance
  }

  function ReadingOf(s: Service, k: Kind, request: map<string, Json>, response: Json): Option<MetricReading> {
    match ShapeOf(k)
    case PValueShape =>
      var r := s.pValue(response);
      if r.None? || !ValidPValue(r.value) then None
      else Some(MetricReading(r.value.pValue, Some(r.value.alpha), r.value.driftDetected, Some(r.value.value), None))
    case ThresholdShape =>
      if k.JensenShannon? then
        var r := s.jensenShannon(response);
        if r.None? || !ValidJensenShannon(r.value) || !RequestedStatistic(request, r.value.byDistance) then None
        else Some(MetricReading(Decisive(r.value), Some(r.value.threshold), r.value.driftDetected, None, None))
      else
        var r := s.threshold(response);
        if r.None? || !ValidThreshold(r.value) then None
        else Some(MetricReading(r.value.value, Some(r.value.threshold), r.value.driftDetected, None, None))
    case RangeShape =>
      var r := s.fairness(response);
      if r.None? || !ValidFairness(r.value) || r.value.name != MetricName(k) then None
      else Some(MetricReading(r.value.value, None, r.value.outside, None, Some((r.value.lower, r.value.upper))))
  }

  // ----- Normalization -----

  datatype MetricRequest = MetricRequest(
    kind: Kind, sourceUrl: string, scope: Scope, observedAt: Instant, validity: int, confidence: real,
    correlationId: Option<string>, modelVersion: Option<string>)

  predicate CleanModelId(j: Json) {
    && j.JStr? && 1 <= |j.s| <= 1024 && !IsSpace(j.s[0]) && !IsSpace(j.s[|j.s| - 1])
    && forall c :: c in j.s ==> c as int >= 32 && c as int != 127
  }

  function Exchange(k: Kind, request: map<string, Json>, response: Json): Json {
    JObj(map["api_revision" := JStr(ServiceRevision()), "metric_kind" := JStr(KindText(k)),
             "request" := JObj(request), "response" := response])
  }

  function Suffix(digest: string, n: nat): string {
    var hex := if "sha256:" <= digest then digest[7..] else digest;
    if |hex| <= n then hex else hex[..n]
  }

  function RangeJson(b: (real, real)): Json {
    JObj(map["lower" := JReal(b.0), "upper" := JReal(b.1)])
  }

  function FixedExtensions(k: Kind, model: string, requestDigest: string, responseDigest: string): map<string, Json> {
    map[RevisionKey() := JStr(ServiceRevision()), EndpointKey() := JStr(Endpoint(k)), FamilyKey() := JStr(Family(k)),
        KindKey() := JStr(KindText(k)), ModelKey() := JStr(model), ModeKey() := JStr("authenticated-compute-response"),
        RequestKey() := JStr(requestDigest), ResponseKey() := JStr(responseDigest)]
  }

  function MetricExtensions(k: Kind, model: string, requestDigest: string, responseDigest: string, r: MetricReading): map<string, Json> {
    var fixed := FixedExtensions(k, model, requestDigest, responseDigest);
    var bounded := if r.bounds.Some? then fixed[BoundsKey() := RangeJson(r.bounds.value)] else fixed;
    if r.statistic.Some? then bounded[StatisticKey() := JReal(r.statistic.value)] else bounded
  }

  function MetricEnvelope(s: Service, q: MetricRequest, request: map<string, Json>, response: Json, model: string, r: MetricReading): Envelope {
    var requestDigest := CanonicalDigest(s.hash, JObj(request));
    var responseDigest := CanonicalDigest(s.hash, response);
    var exchange := CanonicalDigest(s.hash, Exchange(q.kind, request, response));
    Envelope(
      Metadata("trustyai:" + KindText(q.kind) + ":" + Suffix(exchange, 32),
               if q.correlationId.Some? && q.correlationId.value != "" then q.correlationId.value
               else "trustyai:" + q.scope.tenant + ":" + model + ":" + Suffix(exchange, 16),
               Some(requestDigest), q.observedAt, q.observedAt + q.validity, Rebuilt(s, q.sourceUrl), Schema(q.kind)),
      q.scope,
      Subject("model", model, q.modelVersion),
      Measurement(MeasurementName(q.kind), JReal(r.value), Some(UnitOf(q.kind)), if r.threshold.Some? then JReal(r.threshold.value) else JNull,
                  if r.failed then Failed else Passed, None),
      Assurance(q.confidence, exchange, None),
      MetricExtensions(q.kind, model, requestDigest, responseDigest, r))
  }

  predicate MatchingSource(s: Service, q: MetricRequest) {
    var u := s.split(q.sourceUrl);
    AbsoluteHttp(u) && Bare(u) && WithoutSlashes(u.path) == Endpoint(q.kind)
  }

  predicate MatchingMetric(k: Kind, request: map<string, Json>) {
    Get(request, "metricName").JNull? || Get(request, "metricName") == JStr(MetricName(k))
  }

  /** The exchanges that become evidence. */
  predicate AcceptableExchange(s: Service, q: MetricRequest, request: map<string, Json>, response: Json) {
    && MatchingSource(s, q) && q.validity > 0 && 0.0 <= q.confidence <= 1.0
    && Get(request, "modelId").JStr? && CleanModelId(Get(request, "modelId")) && MatchingMetric(q.kind, request)
    && ReadingOf(s, q.kind, request, response).Some?
    && ValidEnvelope(MetricOf(s, q, request, response))
  }

  /** The envelope that an accepted exchange becomes. */
  function MetricOf(s: Service, q: MetricRequest, request: map<string, Json>, response: Json): Envelope
    requires ReadingOf(s, q.kind, request, response).Some? && Get(request, "modelId").JStr?
  {
    MetricEnvelope(s, q, request, response, Get(request, "modelId").s, ReadingOf(s, q.kind, request, response).value)
  }

  /** The part of the adapter that takes the response apart, by its shape. */
  method ReadResponse(s: Service, k: Kind, request: map<string, Json>, response: Json) returns (reading: Option<MetricReading>)
    ensures reading == ReadingOf(s, k, request, response)
  {
    hide ValidPValue, ValidThreshold, ValidJensenShannon, ValidFairness, MetricName, Decisive;
    assert "distance"[2] != "divergence"[2];
    var value, threshold, failed := 0.0, None, false;
    var statistic, bounds := None, None;
    match ShapeOf(k) {
      case PValueShape =>
        var r := s.pValue(response);
        if r.None? || !ValidPValue(r.value) {
          return None;
        }
        value, threshold, failed := r.value.pValue, Some(r.value.alpha), r.value.driftDetected;
        statistic := Some(r.value.value);
      case ThresholdShape =>
        if k.JensenShannon? {
          var r := s.jensenShannon(response);
          if r.None? || !ValidJensenShannon(r.value) {
            return None;
          }
          var asked := if "statistic" in request then request["statistic"] else JStr("distance");
          if asked != JStr(if r.value.byDistance then "distance" else "divergence") {
            return None;
          }
          value, threshold, failed := Decisive(r.value), Some(r.value.threshold), r.value.driftDetected;
        } else {
          var r := s.threshold(response);
          if r.None? || !ValidThreshold(r.value) {
            return None;
          }
          value, threshold, failed := r.value.value, Some(r.value.threshold), r.value.driftDetected;
        }
      case RangeShape =>
        var r := s.fairness(response);
        if r.None? || !ValidFairness(r.value) || r.value.name != MetricName(k) {
          return None;
        }
        value, failed := r.value.value, r.value.outside;
        bounds := Some((r.value.lower, r.value.upper));
    }
    reading := Some(MetricReading(value, threshold, failed, statistic, bounds));
  }

  method CheckSource(s: Service, q: MetricRequest) returns (matches: bool)
    ensures matches <==> MatchingSource(s, q)
  {
    hide Endpoint, WithoutSlashes;
    var url := s.split(q.sourceUrl);
    if (url.scheme != "http" && url.scheme != "https") || url.netloc == "" {
      return false;
    }
    if url.username != "" || url.password != "" || url.query != "" || url.fragment != "" {
      return false;
    }
    matches := WithoutSlashes(url.path) == Endpoint(q.kind);
  }

  method CheckModelId(j: Json) returns (clean: bool)
    ensures clean <==> CleanModelId(j)
  {
    hide IsSpace;
    if !j.JStr? || j.s == "" || |j.s| > 1024 {
      return false;
    }
    if IsSpace(j.s[0]) || IsSpace(j.s[|j.s| - 1]) {
      return false;
    }
    clean := !exists c :: c in j.s && (c as int < 32 || c as int == 127);
  }

  /** The adapter. */
  method NormalizeMetric(s: Service, q: MetricRequest, request: map<string, Json>, response: Json) returns (envelope: Answer<Envelope>)
    ensures envelope.Ok? <==> AcceptableExchange(s, q, request, response)
    ensures envelope.Ok? ==> envelope.value == MetricOf(s, q, request, response)
  {
    hide ValidEnvelope, MetricEnvelope, CleanModelId, MatchingSource, ReadingOf, Get, MetricName;
    var matches := CheckSource(s, q);
    if !matches || q.validity <= 0 || !(0.0 <= q.confidence <= 1.0) {
      return Raise("TrustyAIServiceAdapterError");
    }
    var modelId := Get(request, "modelId");
    var clean := CheckModelId(modelId);
    if !clean {
      return Raise("TrustyAIServiceAdapterError");
    }
    var named := Get(request, "metricName");
    if !named.JNull? && named != JStr(MetricName(q.kind)) {
      return Raise("TrustyAIServiceAdapterError");
    }
    var reading := ReadResponse(s, q.kind, request, response);
    if reading.None? {
      return Raise("TrustyAIServiceAdapterError");
    }
    CleanIsText(modelId);
    var result := MetricEnvelope(s, q, request, response, modelId.s, reading.value);
    envelope := if ValidEnvelope(result) then Ok(result) else Raise("ValidationError");
  }

  lemma CleanIsText(j: Json)
    requires CleanModelId(j)
    ensures j.JStr?
  {
  }
}
