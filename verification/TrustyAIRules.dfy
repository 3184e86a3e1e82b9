/** The rules of the TrustyAI policy, written out on the fields of an envelope as any producer may
    have filled them in, and that the policy admits exactly what follows the rules. */
module TrustyAIRules {
  import opened Basics
  import opened Order
  import opened Json
  import opened Contracts
  import opened Cycle
  import opened EvalHub
  import opened EvalHubPolicy
  import opened EvalHubRules
  import opened TrustyAI
  import opened TrustyAIPolicy

  /** The envelope says of itself that it is a measurement of the given kind, made by its endpoint
      for the model that it is about. */
  ghost predicate Identifies(split: string -> Url, e: Envelope, k: Kind) {
    && e.metadata.schemaUri == Schema(k)
    && Get(e.extensions, RevisionKey()) == JStr(ServiceRevision())
    && Get(e.extensions, KindKey()) == JStr(KindText(k)) && Get(e.extensions, FamilyKey()) == JStr(Family(k))
    && Get(e.extensions, EndpointKey()) == JStr(Endpoint(k)) && Root(split(e.metadata.producer).path, Endpoint(k))
    && Get(e.extensions, ModelKey()) == JStr(e.subject.id)
    && e.measurement.name == MeasurementName(k) && e.measurement.unit == Some(UnitOf(k))
  }

  /** It rests on an authenticated exchange, by digest, and on no artifact. */
  ghost predicate RestsOnExchange(e: Envelope) {
    && Get(e.extensions, ModeKey()) == JStr("authenticated-compute-response")
    && e.assurance.artifactUri == None && IsDigest(e.assurance.digest)
    && (exists d :: Get(e.extensions, RequestKey()) == JStr(d) && IsDigest(d))
    && exists d :: Get(e.extensions, ResponseKey()) == JStr(d) && IsDigest(d)
  }

  /** The JSON value is the number, written as an integer or not. */
  predicate Is(j: Json, x: real) {
    (j.JInt? && j.i as real == x) || j == JReal(x)
  }

  /** Its status is the one that its numbers call for. */
  ghost predicate ShowsVerdict(e: Envelope, k: Kind) {
    exists value: real :: Is(e.measurement.value, value) && ShowsVerdictOf(e, k, value)
  }

  ghost predicate ShowsVerdictOf(e: Envelope, k: Kind, value: real) {
    match k
    case KSTest => ShowsPValue(e, value)
    case CompareMeans => ShowsPValue(e, value)
    case JensenShannon => ShowsDistance(e, value)
    case MMD => ShowsDistance(e, value)
    case SPD => ShowsRange(e, value)
    case DIR => ShowsRange(e, value)
  }

  ghost predicate Shows(e: Envelope, failed: bool) {
    e.measurement.status == if failed then MeasurementStatus.Failed else MeasurementStatus.Passed
  }

  /** A p-value fails below the significance level; the test statistic is there as well. */
  ghost predicate ShowsPValue(e: Envelope, value: real) {
    && (exists alpha :: Is(e.measurement.threshold, alpha) && 0.0 < alpha < 1.0 && Shows(e, value < alpha))
    && exists x :: Is(Get(e.extensions, StatisticKey()), x)
  }

  /** A distance fails above the threshold. */
  ghost predicate ShowsDistance(e: Envelope, value: real) {
    exists threshold :: Is(e.measurement.threshold, threshold) && Shows(e, value > threshold)
  }

  /** A fairness metric fails outside its bounds; there is no single threshold. */
  ghost predicate ShowsRange(e: Envelope, value: real) {
    && e.measurement.threshold == JNull && Get(e.extensions, BoundsKey()).JObj?
    && exists lower, upper :: InBounds(Get(e.extensions, BoundsKey()).fields, lower, upper) && Shows(e, !(lower <= value <= upper))
  }

  predicate InBounds(bounds: map<string, Json>, lower: real, upper: real) {
    Is(Get(bounds, "lower"), lower) && Is(Get(bounds, "upper"), upper) && lower <= upper
  }

  // ----- The contract check follows the rules -----

  lemma NumberExact(j: Json, x: real)
    ensures Number(j) == Some(x) <==> Is(j, x)
  {
  }

  lemma KindExact(uri: string, k: Kind)
    ensures BySchema(uri) == Some(k) <==> uri == Schema(k)
  {
    SchemaNamesContract(k);
    hide Schema;
  }

  lemma IdentityExact(split: string -> Url, e: Envelope, k: Kind)
    requires e.metadata.schemaUri == Schema(k)
    ensures IdentityProblem(split, e, k).None? && e.measurement.name == MeasurementName(k) && e.measurement.unit == Some(UnitOf(k))
      <==> Identifies(split, e, k)
  {
    hide Get, RevisionKey, KindKey, FamilyKey, EndpointKey, ModelKey, ServiceRevision, KindText, Family, Endpoint, Schema;
    hide MeasurementName, UnitOf, Root, WithoutSlashes;
    RootExact(split(e.metadata.producer).path, Endpoint(k));
  }

  lemma SourceExact(e: Envelope)
    ensures SourceProblem(e).None? <==> RestsOnExchange(e)
  {
    hide Get, ModeKey, RequestKey, ResponseKey, IsDigest;
  }

  lemma PValueExact(e: Envelope, k: Kind, value: real)
    requires ShapeOf(k).PValueShape? && Number(e.measurement.value) == Some(value)
    ensures Rederived(e, k).Ok? && Shows(e, Rederived(e, k).value) <==> ShowsPValue(e, value)
  {
    hide Get, StatisticKey, Number, Is;
    var threshold, statistic := Number(e.measurement.threshold), Number(Get(e.extensions, StatisticKey()));
    forall x ensures threshold == Some(x) <==> Is(e.measurement.threshold, x) {
      NumberExact(e.measurement.threshold, x);
    }
    forall x ensures statistic == Some(x) <==> Is(Get(e.extensions, StatisticKey()), x) {
      NumberExact(Get(e.extensions, StatisticKey()), x);
    }
    if threshold.Some? {
      assert Is(e.measurement.threshold, threshold.value);
    }
    if statistic.Some? {
      assert Is(Get(e.extensions, StatisticKey()), statistic.value);
    }
  }

  lemma DistanceExact(e: Envelope, k: Kind, value: real)
    requires ShapeOf(k).ThresholdShape? && Number(e.measurement.value) == Some(value)
    ensures Rederived(e, k).Ok? && Shows(e, Rederived(e, k).value) <==> ShowsDistance(e, value)
  {
    hide Number, Is;
    var threshold := Number(e.measurement.threshold);
    forall x ensures threshold == Some(x) <==> Is(e.measurement.threshold, x) {
      NumberExact(e.measurement.threshold, x);
    }
    if threshold.Some? {
      assert Is(e.measurement.threshold, threshold.value);
    }
  }

  lemma RangeExact(e: Envelope, k: Kind, value: real)
    requires ShapeOf(k).RangeShape? && Number(e.measurement.value) == Some(value)
    ensures Rederived(e, k).Ok? && Shows(e, Rederived(e, k).value) <==> ShowsRange(e, value)
  {
    hide Get, BoundsKey, Number;
    var bounds := Get(e.extensions, BoundsKey());
    if bounds.JObj? {
      var lower, upper := Number(Get(bounds.fields, "lower")), Number(Get(bounds.fields, "upper"));
      forall x ensures lower == Some(x) <==> Is(Get(bounds.fields, "lower"), x) {
        NumberExact(Get(bounds.fields, "lower"), x);
      }
      forall x ensures upper == Some(x) <==> Is(Get(bounds.fields, "upper"), x) {
        NumberExact(Get(bounds.fields, "upper"), x);
      }
      hide Is;
      if lower.Some? && upper.Some? && lower.value <= upper.value {
        assert InBounds(bounds.fields, lower.value, upper.value);
      }
    }
  }

  lemma VerdictExact(e: Envelope, k: Kind)
    ensures Rederived(e, k).Ok? && Shows(e, Rederived(e, k).value) <==> ShowsVerdict(e, k)
  {
    hide Number, Is, ShowsPValue, ShowsDistance, ShowsRange, Shows;
    var value := Number(e.measurement.value);
    forall x ensures value == Some(x) <==> Is(e.measurement.value, x) {
      NumberExact(e.measurement.value, x);
    }
    if value.Some? {
      assert Is(e.measurement.value, value.value);
      match ShapeOf(k) {
        case PValueShape => PValueExact(e, k, value.value);
        case ThresholdShape => DistanceExact(e, k, value.value);
        case RangeShape => RangeExact(e, k, value.value);
      }
    } else {
      NotNumeric(e, k);
    }
  }

  lemma NotNumeric(e: Envelope, k: Kind)
    requires Number(e.measurement.value).None?
    ensures Rederived(e, k).Raise?
  {
    hide Number;
  }

  /** The measurement is one of the six, and everything about it is as its contract says. */
  ghost predicate KeepsContract(split: string -> Url, e: Envelope) {
    exists k: Kind :: Identifies(split, e, k) && RestsOnExchange(e) && ShowsVerdict(e, k)
  }

  lemma MeasurementExact(e: Envelope, k: Kind)
    ensures MeasurementProblem(e, k).None?
      <==> e.measurement.name == MeasurementName(k) && e.measurement.unit == Some(UnitOf(k)) && ShowsVerdict(e, k)
  {
    hide Rederived, ShowsVerdict, MeasurementName, UnitOf;
    VerdictExact(e, k);
  }

  lemma ContractOfKind(split: string -> Url, e: Envelope, k: Kind)
    requires e.metadata.schemaUri == Schema(k)
    ensures ContractProblem(split, e).None? <==> Identifies(split, e, k) && RestsOnExchange(e) && ShowsVerdict(e, k)
  {
    hide IdentityProblem, SourceProblem, MeasurementProblem, Identifies, RestsOnExchange, ShowsVerdict, BySchema, Schema;
    hide MeasurementName, UnitOf;
    KindExact(e.metadata.schemaUri, k);
    IdentityExact(split, e, k);
    SourceExact(e);
    MeasurementExact(e, k);
  }

  lemma ContractExact(split: string -> Url, e: Envelope)
    ensures ContractProblem(split, e).None? <==> KeepsContract(split, e)
  {
    hide IdentityProblem, SourceProblem, MeasurementProblem, RestsOnExchange, ShowsVerdict, BySchema, Schema;
    forall k | e.metadata.schemaUri == Schema(k)
      ensures ContractProblem(split, e).None? <==> Identifies(split, e, k) && RestsOnExchange(e) && ShowsVerdict(e, k)
    {
      ContractOfKind(split, e, k);
    }
    if BySchema(e.metadata.schemaUri).Some? {
      KindExact(e.metadata.schemaUri, BySchema(e.metadata.schemaUri).value);
    }
    forall k ensures BySchema(e.metadata.schemaUri) == Some(k) <==> e.metadata.schemaUri == Schema(k) {
      KindExact(e.metadata.schemaUri, k);
    }
  }

  // ----- The policy follows the rules -----

  ghost predicate FollowsMetricRules(p: MetricPolicy, e: Envelope, scope: Scope) {
    && KeepsContract(p.split, e)
    && Under(p.split, e.metadata.producer, p.prefix) && e.scope == scope && e.assurance.confidence >= p.minimum
  }

  /** The policy admits an envelope, of whatever producer, exactly if it follows the rules. */
  lemma AdmitsMetricExactly(p: MetricPolicy, e: Envelope, scope: Scope)
    ensures AdmitsMetric(p, e, scope) <==> FollowsMetricRules(p, e, scope)
  {
    hide AtOrBelow, Under, ContractProblem, KeepsContract;
    UnderExact(p.split, e.metadata.producer, p.prefix);
    ContractExact(p.split, e);
  }

  // ----- Tampering -----

  /** Two envelopes that differ in the status only do not both keep the contract. */
  lemma OneStatus(split: string -> Url, e: Envelope, status: MeasurementStatus)
    requires KeepsContract(split, e) && status != e.measurement.status
    ensures !KeepsContract(split, e.(measurement := e.measurement.(status := status)))
  {
    hide IdentityProblem, SourceProblem, BySchema, Schema, MeasurementName, UnitOf;
    var f := e.(measurement := e.measurement.(status := status));
    ContractExact(split, e);
    ContractExact(split, f);
    hide KeepsContract;
    SameVerdict(e, f);
  }

  lemma SameVerdict(e: Envelope, f: Envelope)
    requires f.(measurement := f.measurement.(status := e.measurement.status)) == e
    ensures forall k :: Rederived(f, k) == Rederived(e, k)
  {
    hide Get, BoundsKey, StatisticKey;
  }

  /** A normalized metric with its status changed is refused, whatever the policy's configuration. */
  lemma TamperedStatus(s: Service, q: MetricRequest, request: map<string, Json>, response: Json, p: MetricPolicy, scope: Scope,
                       status: MeasurementStatus)
    requires TrustedService(s) && AcceptableExchange(s, q, request, response) && p.split == s.split
    ensures var e := MetricOf(s, q, request, response);
      status != e.measurement.status ==> !AdmitsMetric(p, e.(measurement := e.measurement.(status := status)), scope)
  {
    hide TrustedService, AcceptableExchange, MetricOf, KeepsContract, ContractProblem, AtOrBelow, UpstreamFailed, Rederived, Failing;
    AcceptedIsReadable(s, q, request, response);
    var e := MetricOf(s, q, request, response);
    AdapterKeepsContract(s, q, request, response);
    ContractExact(s.split, e);
    if status != e.measurement.status {
      var f := e.(measurement := e.measurement.(status := status));
      OneStatus(s.split, e, status);
      ContractExact(s.split, f);
    }
  }

  lemma AcceptedIsReadable(s: Service, q: MetricRequest, request: map<string, Json>, response: Json)
    requires AcceptableExchange(s, q, request, response)
    ensures ReadingOf(s, q.kind, request, response).Some? && Get(request, "modelId").JStr?
  {
    hide MatchingSource, CleanModelId, MatchingMetric, ReadingOf, ValidEnvelope, MetricOf, Get;
  }

  /** The extensions that identify a metric: changing any of them to anything else is refused. */
  lemma TamperedIdentity(s: Service, q: MetricRequest, request: map<string, Json>, response: Json, p: MetricPolicy, scope: Scope,
                         key: string, value: Json)
    requires TrustedService(s) && AcceptableExchange(s, q, request, response) && p.split == s.split
    requires key in [RevisionKey(), KindKey(), FamilyKey(), EndpointKey(), ModelKey(), ModeKey()]
    ensures var e := MetricOf(s, q, request, response);
      value != Get(e.extensions, key) ==> !AdmitsMetric(p, e.(extensions := e.extensions[key := value]), scope)
  {
    hide TrustedService, AcceptableExchange, MetricOf, ContractProblem, AtOrBelow, UpstreamFailed, Rederived, Failing, ShowsVerdict;
    hide Schema, RevisionKey, KindKey, FamilyKey, EndpointKey, ModelKey, ModeKey, Root, IsDigest;
    AcceptedIsReadable(s, q, request, response);
    var e := MetricOf(s, q, request, response);
    AdapterKeepsContract(s, q, request, response);
    ContractExact(s.split, e);
    var f := e.(extensions := e.extensions[key := value]);
    ContractExact(s.split, f);
    assert Get(f.extensions, key) == value;
    forall j: Kind, k: Kind | Schema(j) == Schema(k) ensures j == k {
      SchemaNamesContract(j);
      SchemaNamesContract(k);
    }
  }
}
