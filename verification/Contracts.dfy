/** The governance contracts: evidence envelopes, what the ports produce, the decision
    package, and the validators that every one of them has passed. */
module Contracts {
  import opened Basics
  import opened Json

  type Instant = int

  // ----- Evidence -----

  datatype MeasurementStatus = Passed | Failed | Warning | Unknown

  datatype Metadata = Metadata(
    id: string, correlationId: string, causationId: Option<string>,
    observedAt: Instant, expiresAt: Instant, producer: string, schemaUri: string)

  datatype Scope = Scope(tenant: string, namespace: Option<string>, environment: Option<string>)

  datatype Subject = Subject(kind: string, id: string, version: Option<string>)

  datatype Measurement = Measurement(
    name: string, value: Json, unit: Option<string>, threshold: Json, status: MeasurementStatus,
    window: Option<(Instant, Instant)>)

  datatype Assurance = Assurance(confidence: real, digest: string, artifactUri: Option<string>)

  datatype Envelope = Envelope(
    metadata: Metadata, scope: Scope, subject: Subject, measurement: Measurement,
    assurance: Assurance, extensions: map<string, Json>)

  predicate Sized(s: string, limit: nat) {
    1 <= |s| <= limit
  }

  predicate SizedOption(s: Option<string>, limit: nat) {
    s.Some? ==> |s.value| <= limit
  }

  predicate IsDigest(s: string) {
    && |s| == 71
    && s[..7] == "sha256:"
    && forall i :: 7 <= i < |s| ==> '0' <= s[i] <= '9' || 'a' <= s[i] <= 'f'
  }

  predicate ValidMetadata(m: Metadata) {
    && Sized(m.id, 512) && Sized(m.correlationId, 512) && SizedOption(m.causationId, 512)
    && Sized(m.producer, 2048) && Sized(m.schemaUri, 2048)
    && m.observedAt < m.expiresAt
  }

  predicate ValidMeasurement(m: Measurement) {
    && Sized(m.name, 256) && SizedOption(m.unit, 64)
    && (m.value.JReal? || m.value.JInt? || m.value.JBool? || m.value.JStr?)
    && (m.threshold.JReal? || m.threshold.JInt? || m.threshold.JBool? || m.threshold.JStr? || m.threshold.JNull?)
    && (m.window.Some? ==> m.window.value.0 < m.window.value.1)
  }

  predicate ValidEnvelope(e: Envelope) {
    && ValidMetadata(e.metadata)
    && Sized(e.subject.kind, 128) && Sized(e.subject.id, 1024) && SizedOption(e.subject.version, 256)
    && ValidMeasurement(e.measurement)
    && 0.0 <= e.assurance.confidence <= 1.0 && IsDigest(e.assurance.digest)
    && SizedOption(e.assurance.artifactUri, 2048)
  }

  /** The validity window is half open. */
  predicate FreshAt(e: Envelope, t: Instant) {
    e.metadata.observedAt <= t < e.metadata.expiresAt
  }

  function DigestOf(e: Envelope): string { e.assurance.digest }

  function IdentityOf(e: Envelope): (string, string) { (e.metadata.producer, e.metadata.id) }

  // ----- What the ports produce -----

  datatype PolicyResult = PolicyResult(checkId: string, allowed: bool, reason: string, evidenceRefs: seq<string>)

  predicate ValidPolicyResult(r: PolicyResult) {
    Distinct(r.evidenceRefs)
  }

  datatype Constraint = Constraint(
    id: string, name: string, hard: bool, expression: Json, confidence: real, evidenceRefs: seq<string>)

  predicate ValidConstraint(c: Constraint) {
    0.0 <= c.confidence <= 1.0 && c.evidenceRefs != [] && Distinct(c.evidenceRefs)
  }

  datatype Term = Term(name: string, weight: real)

  datatype Objective = Objective(terms: seq<Term>, constraintIds: seq<string>, evidenceRefs: seq<string>)

  function TermName(t: Term): string { t.name }

  function TotalWeight(terms: seq<Term>): real {
    if terms == [] then 0.0 else terms[0].weight + TotalWeight(terms[1..])
  }

  predicate ValidObjective(o: Objective) {
    && o.terms != [] && (forall t :: t in o.terms ==> 0.0 <= t.weight <= 1.0)
    && (exists t :: t in o.terms && t.weight > 0.0)
    && -0.000000001 <= TotalWeight(o.terms) - 1.0 <= 0.000000001
    && Distinct(Map(TermName, o.terms))
    && o.constraintIds != [] && Distinct(o.constraintIds)
    && o.evidenceRefs != [] && Distinct(o.evidenceRefs)
  }

  datatype Consequence = Low | Medium | High | Critical

  datatype Candidate = Candidate(
    id: string, action: string, parameters: map<string, Json>, consequence: Consequence,
    objectiveValues: map<string, real>, constraintRefs: seq<string>, evidenceRefs: seq<string>)

  predicate ValidCandidate(c: Candidate) {
    && c.objectiveValues != map[]
    && (forall name :: name in c.objectiveValues ==> 0.0 <= c.objectiveValues[name] <= 1.0)
    && c.constraintRefs != [] && Distinct(c.constraintRefs)
    && c.evidenceRefs != [] && Distinct(c.evidenceRefs)
  }

  datatype Verdict = Survives | Fails

  datatype Finding = Finding(candidateId: string, checkId: string, verdict: Verdict, reasoning: string, evidenceRefs: seq<string>)

  predicate ValidFinding(f: Finding) {
    Distinct(f.evidenceRefs)
  }

  datatype RejectedAlternative = RejectedAlternative(candidate: Candidate, reason: string)

  datatype Plan = Plan(candidates: seq<Candidate>, selectedId: string, rejected: seq<RejectedAlternative>)

  function CandidateId(c: Candidate): string { c.id }

  function RejectedId(r: RejectedAlternative): string { r.candidate.id }

  /** Exactly the candidates that were not selected are listed as rejected, unchanged. */
  predicate AlternativesMatch(candidates: seq<Candidate>, selectedId: string, rejected: seq<RejectedAlternative>) {
    var rejectedIds := Map(RejectedId, rejected);
    && Distinct(rejectedIds)
    && selectedId !in rejectedIds
    && Elements(rejectedIds) == Elements(Map(CandidateId, candidates)) - {selectedId}
    && forall r, c :: r in rejected && c in candidates && c.id == r.candidate.id ==> r.candidate == c
  }

  predicate ValidPlan(p: Plan) {
    && p.candidates != [] && (forall c :: c in p.candidates ==> ValidCandidate(c))
    && (forall r :: r in p.rejected ==> ValidCandidate(r.candidate))
    && Distinct(Map(CandidateId, p.candidates))
    && p.selectedId in Map(CandidateId, p.candidates)
    && AlternativesMatch(p.candidates, p.selectedId, p.rejected)
  }

  function Selected(candidates: seq<Candidate>, id: string): (c: Candidate)
    requires id in Map(CandidateId, candidates)
    ensures c in candidates && c.id == id
  {
    if candidates[0].id == id then candidates[0]
    else
      assert id in Map(CandidateId, candidates[1..]) by {
        var i :| 0 <= i < |candidates| && Map(CandidateId, candidates)[i] == id;
        assert Map(CandidateId, candidates[1..])[i - 1] == id;
      }
      Selected(candidates[1..], id)
  }

  // ----- Objective cost -----

  function Share(t: Term, values: map<string, real>): real
    requires t.name in values
  {
    t.weight * values[t.name]
  }

  function WeightedSum(terms: seq<Term>, values: map<string, real>): real
    requires forall t :: t in terms ==> t.name in values
  {
    if terms == [] then 0.0
    else Share(terms[0], values) + WeightedSum(terms[1..], values)
  }

  /** A candidate that does not value exactly the objective's terms has no cost. */
  function Cost(o: Objective, c: Candidate): Option<real> {
    if c.objectiveValues.Keys == Elements(Map(TermName, o.terms)) then
      assert forall t :: t in o.terms ==> t.name in Map(TermName, o.terms) by {
        forall t | t in o.terms ensures t.name in Map(TermName, o.terms) {
          var i :| 0 <= i < |o.terms| && o.terms[i] == t;
          assert Map(TermName, o.terms)[i] == t.name;
        }
      }
      Some(WeightedSum(o.terms, c.objectiveValues))
    else None
  }

  predicate Priced(o: Objective, candidates: seq<Candidate>) {
    forall c :: c in candidates ==> Cost(o, c).Some?
  }

  predicate Cheapest(o: Objective, selected: Candidate, candidates: seq<Candidate>)
    requires Priced(o, candidates) && selected in candidates
  {
    forall c :: c in candidates ==> Cost(o, selected).value <= Cost(o, c).value
  }

  // ----- The decision package -----

  datatype EvidenceReference = EvidenceReference(
    id: string, producer: string, schemaUri: string, artifactDigest: string, envelopeDigest: string,
    artifactUri: Option<string>)

  function ReferenceIdentity(r: EvidenceReference): (string, string) { (r.producer, r.id) }

  function ReferenceEnvelope(r: EvidenceReference): string { r.envelopeDigest }

  function ReferenceArtifact(r: EvidenceReference): string { r.artifactDigest }

  datatype Proposer = Proposer(id: string, workloadIdentity: string, trustDomain: string)

  datatype Package = Package(
    createdAt: Instant, expiresAt: Instant, correlationId: string, scope: Scope, proposer: Proposer,
    evidence: seq<EvidenceReference>, evidenceRefs: seq<string>, policies: seq<PolicyResult>,
    constraints: seq<Constraint>, objective: Objective, candidates: seq<Candidate>, selectedId: string,
    rejected: seq<RejectedAlternative>, findings: seq<Finding>, cycleKey: string)

  predicate PackageFreshAt(p: Package, t: Instant) {
    p.createdAt <= t < p.expiresAt
  }

  function CheckId(r: PolicyResult): string { r.checkId }

  function ConstraintId(c: Constraint): string { c.id }

  function FindingKey(f: Finding): (string, string) { (f.candidateId, f.checkId) }

  predicate CoherentEvidence(p: Package) {
    && p.evidence != [] && p.evidenceRefs != [] && Distinct(p.evidenceRefs)
    && Distinct(Map(ReferenceIdentity, p.evidence))
    && Distinct(Map(ReferenceEnvelope, p.evidence))
    && Elements(Map(ReferenceArtifact, p.evidence)) == Elements(p.evidenceRefs)
  }

  predicate CoherentGates(p: Package) {
    && Distinct(Map(CheckId, p.policies))
    && (forall r :: r in p.policies ==> r.allowed)
    && p.constraints != [] && Distinct(Map(ConstraintId, p.constraints))
    && Elements(p.objective.constraintIds) == Elements(Map(ConstraintId, p.constraints))
  }

  predicate Covers(c: Candidate, constraints: seq<Constraint>) {
    forall k :: k in constraints && k.hard ==> k.id in c.constraintRefs
  }

  predicate CoherentSelection(p: Package) {
    var ids := Map(CandidateId, p.candidates);
    && p.candidates != [] && Distinct(ids) && p.selectedId in ids
    && (forall c :: c in p.candidates ==> Inside(c.constraintRefs, Elements(Map(ConstraintId, p.constraints))))
    && Covers(Selected(p.candidates, p.selectedId), p.constraints)
    && Priced(p.objective, p.candidates)
    && Cheapest(p.objective, Selected(p.candidates, p.selectedId), p.candidates)
    && AlternativesMatch(p.candidates, p.selectedId, p.rejected)
  }

  predicate CoherentFindings(p: Package) {
    && Distinct(Map(FindingKey, p.findings))
    && (forall f :: f in p.findings ==> f.candidateId in Map(CandidateId, p.candidates))
    && (exists f :: f in p.findings && f.candidateId == p.selectedId)
    && (forall f :: f in p.findings && f.candidateId == p.selectedId ==> f.verdict.Survives?)
  }

  predicate CoherentReferences(p: Package) {
    var known := Elements(p.evidenceRefs);
    && (forall r :: r in p.policies ==> Inside(r.evidenceRefs, known))
    && (forall c :: c in p.constraints ==> Inside(c.evidenceRefs, known))
    && Inside(p.objective.evidenceRefs, known)
    && (forall c :: c in p.candidates ==> Inside(c.evidenceRefs, known))
    && (forall f :: f in p.findings ==> Inside(f.evidenceRefs, known))
  }

  /** The package validator: a package that does not satisfy this cannot be constructed. */
  predicate Coherent(p: Package) {
    && p.createdAt < p.expiresAt
    && CoherentEvidence(p)
    && CoherentGates(p)
    && CoherentSelection(p)
    && CoherentFindings(p)
    && CoherentReferences(p)
  }

  // ----- Artifact verification receipts -----

  datatype Content = Content(role: string, digest: string, mediaType: string, size: nat, registryDigest: Option<string>)

  /** A receipt is only ever positive: a failure is an exception. */
  datatype Receipt = Receipt(
    verifier: string, artifactUri: string, artifactDigest: string, mediaType: string, manifestSize: nat,
    registryDigest: Option<string>, verifiedAt: Instant, content: seq<Content>)
}
