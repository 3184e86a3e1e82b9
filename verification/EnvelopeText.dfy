/** The canonical text of an evidence envelope. Hashing it tells envelopes apart as far as the
    hash tells their texts apart, so the digests in the cycle key need no assumption of their own. */
module EnvelopeText {
  import opened Basics
  import opened Json
  import opened JsonReader
  import opened CanonicalText
  import opened Contracts
  import opened Cycle
  import opened Builtin

  /** The ISO form of an instant belongs to the datetime library. */
  type Clockface = Instant -> string

  function TextOrNull(text: Option<string>): Json {
    if text.Some? then JStr(text.value) else JNull
  }

  /** Absent values are left out. */
  function WithoutNulls(fields: map<string, Json>): map<string, Json> {
    map k | k in fields && !fields[k].JNull? :: fields[k]
  }

  function MetadataFields(at: Clockface, m: Metadata): map<string, Json> {
    map["id" := JStr(m.id), "correlation_id" := JStr(m.correlationId), "causation_id" := TextOrNull(m.causationId),
        "observed_at" := JStr(at(m.observedAt)), "expires_at" := JStr(at(m.expiresAt)),
        "producer" := JStr(m.producer), "schema_uri" := JStr(m.schemaUri)]
  }

  function MeasurementFields(at: Clockface, m: Measurement): map<string, Json> {
    map["name" := JStr(m.name), "value" := m.value, "unit" := TextOrNull(m.unit), "threshold" := m.threshold,
        "status" := JStr(StatusText(m.status)),
        "window_start" := if m.window.Some? then JStr(at(m.window.value.0)) else JNull,
        "window_end" := if m.window.Some? then JStr(at(m.window.value.1)) else JNull]
  }

  function AssuranceFields(a: Assurance): map<string, Json> {
    map["confidence" := JReal(a.confidence), "digest" := JStr(a.digest), "artifact_uri" := TextOrNull(a.artifactUri)]
  }

  function EnvelopeJson(at: Clockface, e: Envelope): Json {
    JObj(map["api_version" := JStr("io.github.jkershawrh.gcl/v1alpha1"), "kind" := JStr("EvidenceEnvelope"),
             "metadata" := JObj(WithoutNulls(MetadataFields(at, e.metadata))),
             "scope" := ScopeJson(e.scope), "subject" := SubjectJson(e.subject),
             "measurement" := JObj(WithoutNulls(MeasurementFields(at, e.measurement))),
             "assurance" := JObj(WithoutNulls(AssuranceFields(e.assurance))),
             "extensions" := JObj(e.extensions)])
  }

  // ----- The JSON form loses nothing -----

  function InstantsOf(e: Envelope): set<Instant> {
    {e.metadata.observedAt, e.metadata.expiresAt}
    + if e.measurement.window.Some? then {e.measurement.window.value.0, e.measurement.window.value.1} else {}
  }

  ghost predicate TellsApart(at: Clockface, e: Envelope, f: Envelope) {
    forall s, t :: s in InstantsOf(e) && t in InstantsOf(f) && at(s) == at(t) ==> s == t
  }

  lemma NullsRead(x: map<string, Json>, y: map<string, Json>, key: string)
    requires WithoutNulls(x) == WithoutNulls(y) && key in x && key in y
    ensures x[key] == y[key]
  {
    assert key in WithoutNulls(x) <==> !x[key].JNull?;
    assert key in WithoutNulls(y) <==> !y[key].JNull?;
    assert !x[key].JNull? ==> WithoutNulls(x)[key] == x[key];
    assert !y[key].JNull? ==> WithoutNulls(y)[key] == y[key];
  }

  lemma MetadataInjective(at: Clockface, e: Envelope, f: Envelope)
    requires TellsApart(at, e, f)
    requires WithoutNulls(MetadataFields(at, e.metadata)) == WithoutNulls(MetadataFields(at, f.metadata))
    ensures e.metadata == f.metadata
  {
    hide WithoutNulls;
    var x, y := MetadataFields(at, e.metadata), MetadataFields(at, f.metadata);
    NullsRead(x, y, "id");
    NullsRead(x, y, "correlation_id");
    NullsRead(x, y, "causation_id");
    NullsRead(x, y, "observed_at");
    NullsRead(x, y, "expires_at");
    NullsRead(x, y, "producer");
    NullsRead(x, y, "schema_uri");
    assert e.metadata.observedAt in InstantsOf(e) && e.metadata.expiresAt in InstantsOf(e);
    assert f.metadata.observedAt in InstantsOf(f) && f.metadata.expiresAt in InstantsOf(f);
  }

  lemma SubjectInjective(s: Subject, t: Subject)
    requires SubjectJson(s) == SubjectJson(t)
    ensures s == t
  {
    var x, y := SubjectJson(s).fields, SubjectJson(t).fields;
    assert x["type"] == y["type"] && x["id"] == y["id"];
    assert "version" in x <==> s.version.Some?;
    assert "version" in y <==> t.version.Some?;
    assert s.version.Some? ==> x["version"] == JStr(s.version.value);
    assert t.version.Some? ==> y["version"] == JStr(t.version.value);
  }

  lemma AssuranceInjective(a: Assurance, b: Assurance)
    requires WithoutNulls(AssuranceFields(a)) == WithoutNulls(AssuranceFields(b))
    ensures a == b
  {
    hide WithoutNulls;
    var x, y := AssuranceFields(a), AssuranceFields(b);
    NullsRead(x, y, "confidence");
    NullsRead(x, y, "digest");
    NullsRead(x, y, "artifact_uri");
  }

  lemma StatusInjective(s: MeasurementStatus, t: MeasurementStatus)
    requires StatusText(s) == StatusText(t)
    ensures s == t
  {
    var x, y := StatusText(s), StatusText(t);
    assert |x| == |y| && x[0] == y[0];
  }

  lemma MeasurementInjective(at: Clockface, e: Envelope, f: Envelope)
    requires TellsApart(at, e, f)
    requires WithoutNulls(MeasurementFields(at, e.measurement)) == WithoutNulls(MeasurementFields(at, f.measurement))
    ensures e.measurement == f.measurement
  {
    hide WithoutNulls, StatusText;
    var m, n := e.measurement, f.measurement;
    var x, y := MeasurementFields(at, m), MeasurementFields(at, n);
    NullsRead(x, y, "name");
    NullsRead(x, y, "value");
    NullsRead(x, y, "unit");
    NullsRead(x, y, "threshold");
    NullsRead(x, y, "status");
    NullsRead(x, y, "window_start");
    NullsRead(x, y, "window_end");
    StatusInjective(m.status, n.status);
    if m.window.Some? {
      assert m.window.value.0 in InstantsOf(e) && m.window.value.1 in InstantsOf(e);
      assert n.window.value.0 in InstantsOf(f) && n.window.value.1 in InstantsOf(f);
      assert at(m.window.value.0) == at(n.window.value.0) && at(m.window.value.1) == at(n.window.value.1);
      assert m.window.value.0 == n.window.value.0 && m.window.value.1 == n.window.value.1;
    }
    assert m.unit == n.unit && m.window == n.window;
  }

  lemma EnvelopeInjective(at: Clockface, e: Envelope, f: Envelope)
    requires TellsApart(at, e, f) && EnvelopeJson(at, e) == EnvelopeJson(at, f)
    ensures e == f
  {
    hide MetadataFields, MeasurementFields, AssuranceFields, WithoutNulls, ScopeJson, SubjectJson, TellsApart;
    var x, y := EnvelopeJson(at, e).fields, EnvelopeJson(at, f).fields;
    assert x["metadata"] == y["metadata"] && x["scope"] == y["scope"] && x["subject"] == y["subject"];
    assert x["measurement"] == y["measurement"] && x["assurance"] == y["assurance"] && x["extensions"] == y["extensions"];
    MetadataInjective(at, e, f);
    ScopeJsonInjective(e.scope, f.scope);
    SubjectInjective(e.subject, f.subject);
    MeasurementInjective(at, e, f);
    AssuranceInjective(e.assurance, f.assurance);
  }

  // ----- Digests -----

  function Text(hash: Hashing, at: Clockface, e: Envelope): string {
    Print(hash.repr, EnvelopeJson(at, e))
  }

  /** The digest of an envelope hashes its canonical text, the printers of floats and instants
      are faithful on the items, and the hash tells the texts of the items apart. */
  ghost predicate HashesTexts(hash: Hashing, at: Clockface, floats: iset<real>, items: seq<Envelope>) {
    && FaithfulFloats(hash.repr, floats)
    && (forall e :: e in items ==> Within(EnvelopeJson(at, e), floats) && hash.envelope(e) == hash.sha(Text(hash, at, e)))
    && (forall e, f :: e in items && f in items ==> TellsApart(at, e, f))
    && (forall e, f :: e in items && f in items && hash.sha(Text(hash, at, e)) == hash.sha(Text(hash, at, f))
          ==> Text(hash, at, e) == Text(hash, at, f))
  }

  /** Then the digests tell the items apart. */
  lemma TextsSeparate(hash: Hashing, at: Clockface, floats: iset<real>, items: seq<Envelope>)
    requires HashesTexts(hash, at, floats, items)
    ensures CollisionFree(hash, items)
  {
    hide EnvelopeJson, Print, FaithfulFloats, Within, TellsApart;
    forall e, f | e in items && f in items && hash.envelope(e) == hash.envelope(f) ensures e == f {
      assert Text(hash, at, e) == Text(hash, at, f);
      CanonicalTextDetermines(hash.repr, floats, EnvelopeJson(at, e), EnvelopeJson(at, f));
      EnvelopeInjective(at, e, f);
    }
  }

  /** The cycle key binds the evidence and the scope, with nothing assumed but that the hash
      tells the texts in play apart. */
  lemma CycleKeyBindsTexts(hash: Hashing, at: Clockface, floats: iset<real>, a: seq<Envelope>, s: Scope, b: seq<Envelope>, t: Scope)
    requires HashesTexts(hash, at, floats, a + b)
    requires hash.sha(CycleText(hash, a, s)) == hash.sha(CycleText(hash, b, t))
         ==> CycleText(hash, a, s) == CycleText(hash, b, t)
    ensures CycleKey(hash, a, s) == CycleKey(hash, b, t) <==> multiset(a) == multiset(b) && s == t
  {
    hide HashesTexts, CycleText, CycleKey;
    TextsSeparate(hash, at, floats, a + b);
    CycleKeyBinds(hash, a, s, b, t);
  }

  // ----- What the text says -----

  predicate SaysMetadata(j: Json, at: Clockface, m: Metadata) {
    && j.JObj?
    && j.fields.Keys <= {"id", "correlation_id", "causation_id", "observed_at", "expires_at", "producer", "schema_uri"}
    && Get(j.fields, "id") == JStr(m.id) && Get(j.fields, "correlation_id") == JStr(m.correlationId)
    && TextOrAbsent(j.fields, "causation_id", m.causationId)
    && Get(j.fields, "observed_at") == JStr(at(m.observedAt)) && Get(j.fields, "expires_at") == JStr(at(m.expiresAt))
    && Get(j.fields, "producer") == JStr(m.producer) && Get(j.fields, "schema_uri") == JStr(m.schemaUri)
  }

  predicate SaysSubject(j: Json, s: Subject) {
    && j.JObj? && j.fields.Keys <= {"type", "id", "version"}
    && Get(j.fields, "type") == JStr(s.kind) && Get(j.fields, "id") == JStr(s.id) && TextOrAbsent(j.fields, "version", s.version)
  }

  predicate SaysMeasurement(j: Json, at: Clockface, m: Measurement) {
    && j.JObj? && j.fields.Keys <= {"name", "value", "unit", "threshold", "status", "window_start", "window_end"}
    && Get(j.fields, "name") == JStr(m.name) && Get(j.fields, "value") == m.value && TextOrAbsent(j.fields, "unit", m.unit)
    && (if m.threshold.JNull? then "threshold" !in j.fields else Get(j.fields, "threshold") == m.threshold)
    && Get(j.fields, "status") == JStr(StatusText(m.status))
    && TextOrAbsent(j.fields, "window_start", if m.window.Some? then Some(at(m.window.value.0)) else None)
    && TextOrAbsent(j.fields, "window_end", if m.window.Some? then Some(at(m.window.value.1)) else None)
  }

  predicate SaysAssurance(j: Json, a: Assurance) {
    && j.JObj? && j.fields.Keys <= {"confidence", "digest", "artifact_uri"}
    && Get(j.fields, "confidence") == JReal(a.confidence) && Get(j.fields, "digest") == JStr(a.digest)
    && TextOrAbsent(j.fields, "artifact_uri", a.artifactUri)
  }

  predicate SaysEnvelope(j: Json, at: Clockface, e: Envelope) {
    && j.JObj?
    && j.fields.Keys == {"api_version", "kind", "metadata", "scope", "subject", "measurement", "assurance", "extensions"}
    && j.fields["api_version"] == JStr("io.github.jkershawrh.gcl/v1alpha1") && j.fields["kind"] == JStr("EvidenceEnvelope")
    && SaysMetadata(j.fields["metadata"], at, e.metadata) && SaysScope(j.fields["scope"], e.scope)
    && SaysSubject(j.fields["subject"], e.subject) && SaysMeasurement(j.fields["measurement"], at, e.measurement)
    && SaysAssurance(j.fields["assurance"], e.assurance) && j.fields["extensions"] == JObj(e.extensions)
  }

  lemma NullsKept(x: map<string, Json>, key: string)
    requires key in x
    ensures Get(WithoutNulls(x), key) == x[key] && (key in WithoutNulls(x) <==> !x[key].JNull?)
    ensures WithoutNulls(x).Keys <= x.Keys
  {
  }

  lemma MetadataSaid(at: Clockface, m: Metadata)
    ensures SaysMetadata(JObj(WithoutNulls(MetadataFields(at, m))), at, m)
  {
    hide WithoutNulls;
    var x := MetadataFields(at, m);
    NullsKept(x, "id");
    NullsKept(x, "correlation_id");
    NullsKept(x, "causation_id");
    NullsKept(x, "observed_at");
    NullsKept(x, "expires_at");
    NullsKept(x, "producer");
    NullsKept(x, "schema_uri");
  }

  lemma MeasurementSaid(at: Clockface, m: Measurement)
    ensures SaysMeasurement(JObj(WithoutNulls(MeasurementFields(at, m))), at, m)
  {
    hide WithoutNulls, StatusText;
    var x := MeasurementFields(at, m);
    NullsKept(x, "name");
    NullsKept(x, "value");
    NullsKept(x, "unit");
    NullsKept(x, "threshold");
    NullsKept(x, "status");
    NullsKept(x, "window_start");
    NullsKept(x, "window_end");
  }

  lemma AssuranceSaid(a: Assurance)
    ensures SaysAssurance(JObj(WithoutNulls(AssuranceFields(a))), a)
  {
    hide WithoutNulls;
    var x := AssuranceFields(a);
    NullsKept(x, "confidence");
    NullsKept(x, "digest");
    NullsKept(x, "artifact_uri");
  }

  lemma SubjectSaid(s: Subject)
    ensures SaysSubject(SubjectJson(s), s)
  {
  }

  lemma EnvelopeIsSaid(at: Clockface, e: Envelope)
    ensures SaysEnvelope(EnvelopeJson(at, e), at, e)
  {
    hide MetadataFields, MeasurementFields, AssuranceFields, WithoutNulls, ScopeJson, SubjectJson;
    hide SaysMetadata, SaysScope, SaysSubject, SaysMeasurement, SaysAssurance;
    MetadataSaid(at, e.metadata);
    ScopeIsSaid(e.scope);
    SubjectSaid(e.subject);
    MeasurementSaid(at, e.measurement);
    AssuranceSaid(e.assurance);
  }

  /** The text that an envelope is hashed as reads as the envelope, member by member; what is not
      there is not mentioned. */
  lemma EnvelopeTextSays(hash: Hashing, at: Clockface, floats: iset<real>, float: FloatReader, e: Envelope)
    requires ReadsBack(hash.repr, floats, float) && Within(EnvelopeJson(at, e), floats)
    ensures ReadText(float, Text(hash, at, e)).Some? && SaysEnvelope(ReadText(float, Text(hash, at, e)).value, at, e)
  {
    hide ReadText, Print, Within, ReadsBack, EnvelopeJson, SaysEnvelope;
    CanonicalTextReads(hash.repr, floats, float, EnvelopeJson(at, e));
    EnvelopeIsSaid(at, e);
  }
}
