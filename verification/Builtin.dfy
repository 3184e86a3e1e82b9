/** The built-in ports: confidence policy, freshness check, constraint classifier, objective
    interpreter and planner, and the registry of their two actions. */
module Builtin {
  import opened Basics
  import opened Order
  import opened Json
  import opened CanonicalText
  import opened JsonReader
  import opened Contracts
  import opened Registry
  import opened Cycle
  import opened KernelMachine

  // ----- Names -----

  function Governed(name: string): string { "io.github.jkershawrh.gcl.governance/" + name }

  function ReviewRequired(): string { Governed("review-required") }

  function RequestReview(): string { Governed("request_review") }

  function HoldAction(): string { Governed("hold") }

  function RiskTerm(): string { Governed("risk") }

  function InterventionTerm(): string { Governed("intervention") }

  function FreshnessId(): string { "evidence-freshness" }

  lemma NamesDiffer()
    ensures RequestReview() != HoldAction() && RiskTerm() != InterventionTerm()
  {
    assert |RequestReview()| != |HoldAction()| && |RiskTerm()| != |InterventionTerm()|;
  }

  // ----- Policy and check -----

  predicate Confident(minimum: real, evidence: seq<Envelope>) {
    forall e :: e in evidence ==> e.assurance.confidence >= minimum
  }

  /** The result lists the digest of every item, and a result must not list one twice. */
  function ConfidenceResult(minimum: real, evidence: seq<Envelope>): Answer<PolicyResult> {
    var refs := Map(DigestOf, evidence);
    if !Distinct(refs) then Raise("ValidationError")
    else
      var allowed := Confident(minimum, evidence);
      Ok(PolicyResult("minimum-confidence", allowed,
                      if allowed then "all evidence meets the confidence floor" else "evidence is below the confidence floor",
                      refs))
  }

  predicate AllFresh(evidence: seq<Envelope>, at: Instant) {
    forall e :: e in evidence ==> FreshAt(e, at)
  }

  function FreshnessFinding(candidate: Candidate, evidence: seq<Envelope>, at: Instant): Answer<Finding> {
    var refs := Map(DigestOf, evidence);
    if !Distinct(refs) then Raise("ValidationError")
    else
      var inWindow := AllFresh(evidence, at);
      Ok(Finding(candidate.id, FreshnessId(), if inWindow then Survives else Fails,
                 if inWindow then "all evidence is inside its validity window" else "evidence is stale", refs))
  }

  // ----- Classifier -----

  predicate Concerning(e: Envelope) {
    e.measurement.status.Failed? || e.measurement.status.Warning?
  }

  function StatusText(s: MeasurementStatus): string {
    match s
    case Passed => "passed"
    case Failed => "failed"
    case Warning => "warning"
    case Unknown => "unknown"
  }

  function ConstraintIdentity(scope: Scope, e: Envelope): Json {
    JObj(map["name" := JStr(ReviewRequired()), "scope" := ScopeJson(scope), "subject" := SubjectJson(e.subject),
             "measurement" := JStr(e.measurement.name), "status" := JStr(StatusText(e.measurement.status)),
             "hard" := JBool(e.measurement.status.Failed?), "confidence" := JReal(e.assurance.confidence),
             "producer" := JStr(e.metadata.producer), "evidence_id" := JStr(e.metadata.id),
             "evidence_ref" := JStr(e.assurance.digest)])
  }

  function IdentityText(naming: Naming, scope: Scope, e: Envelope): string {
    Print(naming.repr, ConstraintIdentity(scope, e))
  }

  function ReviewConstraint(naming: Naming, scope: Scope, e: Envelope): Constraint {
    Constraint(naming.uuid(IdentityText(naming, scope, e)), ReviewRequired(), e.measurement.status.Failed?,
               JObj(map["measurement" := JStr(e.measurement.name), "status" := JStr(StatusText(e.measurement.status))]),
               e.assurance.confidence, [e.assurance.digest])
  }

  /** The items that need review, in order. */
  function ConcerningItems(evidence: seq<Envelope>): seq<Envelope> {
    Filter(Concerning, evidence)
  }

  function ReviewConstraints(naming: Naming, scope: Scope, evidence: seq<Envelope>): seq<Constraint> {
    Map((e: Envelope) => ReviewConstraint(naming, scope, e), ConcerningItems(evidence))
  }

  /** The classifier's loop: one constraint for every failed or warning item, in order. */
  method Classify(naming: Naming, evidence: seq<Envelope>, scope: Scope) returns (constraints: seq<Constraint>)
    ensures constraints == ReviewConstraints(naming, scope, evidence)
  {
    hide ReviewConstraint, Concerning;
    constraints := [];
    for i := 0 to |evidence|
      invariant constraints == ReviewConstraints(naming, scope, evidence[..i])
    {
      FilterSnoc(Concerning, evidence, i);
      if Concerning(evidence[i]) {
        constraints := constraints + [ReviewConstraint(naming, scope, evidence[i])];
      }
    }
    assert evidence[..|evidence|] == evidence;
  }

  // ----- Objective interpreter -----

  function CitedRefs(constraints: seq<Constraint>): seq<string> {
    if constraints == [] then [] else CitedRefs(constraints[..|constraints| - 1]) + constraints[|constraints| - 1].evidenceRefs
  }

  function RiskObjective(constraints: seq<Constraint>): Objective {
    Objective([Term(RiskTerm(), 2.0 / 3.0), Term(InterventionTerm(), 1.0 / 3.0)],
              Map(ConstraintId, constraints), Dedup(CitedRefs(constraints)))
  }

  // ----- Planner -----

  predicate GovernedBy(names: set<string>, constraints: seq<Constraint>, e: Envelope) {
    exists c :: c in constraints && c.name in names && e.assurance.digest in c.evidenceRefs
  }

  function GovernedItems(names: set<string>, constraints: seq<Constraint>, evidence: seq<Envelope>): seq<Envelope> {
    Filter((e: Envelope) => GovernedBy(names, constraints, e), evidence)
  }

  function SubjectKey(e: Envelope): seq<string> {
    [e.subject.kind, e.subject.id, if e.subject.version.Some? then e.subject.version.value else ""]
  }

  function SubjectId(e: Envelope): string { e.subject.id }

  function PlanIdentity(scope: Scope, items: seq<Envelope>): Json {
    JObj(map["scope" := ScopeJson(scope),
             "subjects" := JArr(Map(TupleJson, Sort(Map(SubjectKey, items), TupleLe))),
             "evidence_refs" := TupleJson(Sort(Dedup(Map(DigestOf, items)), StringLe))])
  }

  function CandidateName(naming: Naming, scope: Scope, items: seq<Envelope>, action: string): string {
    naming.uuid(Print(naming.repr, PlanIdentity(scope, items)) + "|" + action)
  }

  function Review(naming: Naming, scope: Scope, items: seq<Envelope>, constraints: seq<Constraint>): Candidate {
    Candidate(CandidateName(naming, scope, items, RequestReview()), RequestReview(), map["queue" := JStr("model-risk")], Medium,
              map[RiskTerm() := 0.4, InterventionTerm() := 0.2], Map(ConstraintId, constraints), Dedup(Map(DigestOf, items)))
  }

  function Hold(naming: Naming, scope: Scope, items: seq<Envelope>, constraints: seq<Constraint>): Candidate {
    Candidate(CandidateName(naming, scope, items, HoldAction()), HoldAction(),
              map["subject_ids" := TupleJson(Sort(Dedup(Map(SubjectId, items)), StringLe))], High,
              map[RiskTerm() := 0.1, InterventionTerm() := 1.0], Map(ConstraintId, constraints), Dedup(Map(DigestOf, items)))
  }

  /** The cheaper of the two; the action's name decides a tie. */
  predicate ReviewWins(o: Objective, review: Candidate, hold: Candidate)
    requires Cost(o, review).Some? && Cost(o, hold).Some?
  {
    || Cost(o, review).value < Cost(o, hold).value
    || (Cost(o, review).value == Cost(o, hold).value && StringLe(review.action, hold.action))
  }

  function ReviewPlan(o: Objective, review: Candidate, hold: Candidate): Answer<Plan> {
    if Cost(o, review).None? || Cost(o, hold).None? then Raise("ValueError")
    else
      var selected := if ReviewWins(o, review, hold) then review else hold;
      var rejected := if selected.id == review.id then hold else review;
      var alternative := RejectedAlternative(rejected, "the weighted objective cost exceeds the selected cost");
      var plan := Plan([review, hold], selected.id, [alternative]);
      if ValidPlan(plan) then Ok(plan) else Raise("ValidationError")
  }

  function Propose(naming: Naming, names: set<string>, evidence: seq<Envelope>, constraints: seq<Constraint>,
                   o: Objective, scope: Scope): Answer<Option<Plan>>
  {
    var items := GovernedItems(names, constraints, evidence);
    if items == [] then Ok(None)
    else
      var plan := ReviewPlan(o, Review(naming, scope, items, constraints), Hold(naming, scope, items, constraints));
      if plan.Ok? then Ok(Some(plan.value)) else Raise(plan.exception)
  }

  // ----- Registry -----

  function ReviewSchema(): Json {
    JObj(map["type" := JStr("object"),
             "properties" := JObj(map["queue" := JObj(map["type" := JStr("string"), "minLength" := JInt(1)])]),
             "required" := JArr([JStr("queue")]), "additionalProperties" := JBool(false)])
  }

  function HoldSchema(): Json {
    JObj(map["type" := JStr("object"),
             "properties" := JObj(map["subject_ids" :=
               JObj(map["type" := JStr("array"), "items" := JObj(map["type" := JStr("string"), "minLength" := JInt(1)]),
                        "minItems" := JInt(1), "uniqueItems" := JBool(true)])]),
             "required" := JArr([JStr("subject_ids")]), "additionalProperties" := JBool(false)])
  }

  function StandaloneDefinitions(): map<string, Definition> {
    map[RequestReview() := Definition(RequestReview(), ReviewSchema(), {Low, Medium}, [FreshnessId()]),
        HoldAction() := Definition(HoldAction(), HoldSchema(), {High, Critical}, [FreshnessId()])]
  }

  predicate ReviewParameters(p: map<string, Json>) {
    p.Keys == {"queue"} && p["queue"].JStr? && p["queue"].s != ""
  }

  predicate HoldParameters(p: map<string, Json>) {
    && p.Keys == {"subject_ids"} && p["subject_ids"].JArr? && p["subject_ids"].items != []
    && Distinct(p["subject_ids"].items)
    && forall i :: i in p["subject_ids"].items ==> i.JStr? && i.s != ""
  }

  /** The JSON Schema library reads the two schemas as they are meant. */
  ghost predicate ReadsSchemas(conforms: Conforms) {
    forall p :: (conforms(ReviewSchema(), p) <==> ReviewParameters(p)) && (conforms(HoldSchema(), p) <==> HoldParameters(p))
  }

  // ----- Recorder and sink -----

  datatype MemoryEntry = MemoryEntry(receiptId: string, event: Event, correlationId: string)

  class MemoryProofRecorder {
    var entries: seq<MemoryEntry>

    constructor ()
      ensures entries == []
    {
      entries := [];
    }

    /** The identifier is random in the source. */
    method Record(receiptId: string, event: Event, correlationId: string) returns (receipt: string)
      modifies this
      ensures receipt == receiptId && entries == old(entries) + [MemoryEntry(receiptId, event, correlationId)]
    {
      entries := entries + [MemoryEntry(receiptId, event, correlationId)];
      receipt := receiptId;
    }
  }

  /** Every proposal is retained, and acknowledged under its own digest. */
  function Acknowledged(package: Signed): ProposalReceipt {
    ProposalReceipt(Deferred, "noop://standalone", package.digest)
  }

  class NoOpProposalSink {
    var packages: seq<Signed>

    constructor ()
      ensures packages == []
    {
      packages := [];
    }

    method Propose(package: Signed) returns (receipt: ProposalReceipt)
      modifies this
      ensures packages == old(packages) + [package] && receipt == Acknowledged(package)
    {
      packages := packages + [package];
      receipt := Acknowledged(package);
    }
  }

  // ----- What the classifier's output means -----

  lemma {:induction false} ConcerningDistinct(evidence: seq<Envelope>)
    requires Distinct(Map(IdentityOf, evidence))
    ensures Distinct(Map(IdentityOf, ConcerningItems(evidence)))
  {
    hide Concerning;
    if evidence != [] {
      var front, last := evidence[..|evidence| - 1], evidence[|evidence| - 1];
      var ids := Map(IdentityOf, evidence);
      assert Map(IdentityOf, front) == ids[..|front|];
      ConcerningDistinct(front);
      var kept := ConcerningItems(front);
      forall i | 0 <= i < |kept| ensures IdentityOf(kept[i]) != IdentityOf(last) {
        FilterMembers(Concerning, front, kept[i]);
        var k :| 0 <= k < |front| && front[k] == kept[i];
        assert ids[k] == IdentityOf(kept[i]) && ids[|front|] == IdentityOf(last);
      }
    }
  }

  /** uuid5 tells the identity texts in play apart, and the float printer the confidences. */
  ghost predicate NamesApart(naming: Naming, scope: Scope, evidence: seq<Envelope>) {
    && FaithfulFloats(naming.repr, iset e | e in evidence :: e.assurance.confidence)
    && (forall e, f :: e in evidence && f in evidence
          && naming.uuid(IdentityText(naming, scope, e)) == naming.uuid(IdentityText(naming, scope, f))
          ==> IdentityText(naming, scope, e) == IdentityText(naming, scope, f))
  }

  lemma TextsWithin(fields: map<string, Json>, floats: iset<real>)
    requires forall k :: k in fields ==> fields[k].JStr?
    ensures Within(JObj(fields), floats)
  {
  }

  lemma IdentityWithin(scope: Scope, e: Envelope, floats: iset<real>)
    requires e.assurance.confidence in floats
    ensures Within(ConstraintIdentity(scope, e), floats)
  {
    hide ReviewRequired, StatusText;
    var scoped, subject := ScopeJson(scope), SubjectJson(e.subject);
    assert forall k :: k in scoped.fields ==> scoped.fields[k].JStr?;
    assert forall k :: k in subject.fields ==> subject.fields[k].JStr?;
    TextsWithin(scoped.fields, floats);
    TextsWithin(subject.fields, floats);
    var fields := ConstraintIdentity(scope, e).fields;
    assert forall k :: k in fields ==>
      fields[k].JStr? || fields[k].JBool? || fields[k] == JReal(e.assurance.confidence) || fields[k] == scoped || fields[k] == subject;
  }

  /** Items with different producer or id never get the same constraint id. */
  lemma ConstraintIdsApart(naming: Naming, scope: Scope, evidence: seq<Envelope>, e: Envelope, f: Envelope)
    requires NamesApart(naming, scope, evidence) && e in evidence && f in evidence && IdentityOf(e) != IdentityOf(f)
    ensures ReviewConstraint(naming, scope, e).id != ReviewConstraint(naming, scope, f).id
  {
    hide ReviewRequired, StatusText, Print, FaithfulFloats, Within;
    var floats := iset x | x in evidence :: x.assurance.confidence;
    IdentityWithin(scope, e, floats);
    IdentityWithin(scope, f, floats);
    CanonicalTextDetermines(naming.repr, floats, ConstraintIdentity(scope, e), ConstraintIdentity(scope, f));
    var a, b := ConstraintIdentity(scope, e).fields, ConstraintIdentity(scope, f).fields;
    assert a["producer"] == JStr(e.metadata.producer) && b["producer"] == JStr(f.metadata.producer);
    assert a["evidence_id"] == JStr(e.metadata.id) && b["evidence_id"] == JStr(f.metadata.id);
  }

  lemma ConstraintIdsDistinct(naming: Naming, scope: Scope, evidence: seq<Envelope>)
    requires NamesApart(naming, scope, evidence) && Distinct(Map(IdentityOf, evidence))
    ensures Distinct(Map(ConstraintId, ReviewConstraints(naming, scope, evidence)))
  {
    hide NamesApart, ReviewConstraint, Concerning;
    var items := ConcerningItems(evidence);
    var ids := Map(ConstraintId, ReviewConstraints(naming, scope, evidence));
    ConcerningDistinct(evidence);
    forall i, j | 0 <= i < j < |ids| ensures ids[i] != ids[j] {
      FilterMembers(Concerning, evidence, items[i]);
      FilterMembers(Concerning, evidence, items[j]);
      assert Map(IdentityOf, items)[i] != Map(IdentityOf, items)[j];
      ConstraintIdsApart(naming, scope, evidence, items[i], items[j]);
    }
  }

  lemma DigestsExactly(evidence: seq<Envelope>)
    ensures Distinct(Map(DigestOf, evidence))
      <==> !(exists i, j :: 0 <= i < j < |evidence| && evidence[i].assurance.digest == evidence[j].assurance.digest)
  {
    DistinctExact(DigestOf, evidence);
    hide Distinct, Map;
    if i, j :| 0 <= i < j < |evidence| && evidence[i].assurance.digest == evidence[j].assurance.digest {
      assert DigestOf(evidence[i]) == DigestOf(evidence[j]);
    }
    if i, j :| 0 <= i < j < |evidence| && DigestOf(evidence[i]) == DigestOf(evidence[j]) {
      assert evidence[i].assurance.digest == evidence[j].assurance.digest;
    }
  }

  /** The confidence policy allows exactly if nothing is below the floor, the freshness check passes
      exactly if nothing is outside its window; both cite every item in order, and raise exactly
      if two items have one digest. */
  lemma ChecksExactly(minimum: real, candidate: Candidate, evidence: seq<Envelope>, at: Instant)
    ensures var policy, finding := ConfidenceResult(minimum, evidence), FreshnessFinding(candidate, evidence, at);
      && (policy.Raise? <==> exists i, j :: 0 <= i < j < |evidence| && evidence[i].assurance.digest == evidence[j].assurance.digest)
      && (finding.Raise? <==> policy.Raise?)
      && (policy.Ok? ==>
            && (policy.value.allowed <==> !(exists e :: e in evidence && e.assurance.confidence < minimum))
            && (finding.value.verdict.Survives? <==>
                  !(exists e :: e in evidence && (at < e.metadata.observedAt || e.metadata.expiresAt <= at)))
            && finding.value.candidateId == candidate.id && finding.value.evidenceRefs == policy.value.evidenceRefs
            && |policy.value.evidenceRefs| == |evidence|
            && forall i :: 0 <= i < |evidence| ==> policy.value.evidenceRefs[i] == evidence[i].assurance.digest)
  {
    DigestsExactly(evidence);
    hide Distinct;
    assert AllFresh(evidence, at) <==> !(exists e :: e in evidence && (at < e.metadata.observedAt || e.metadata.expiresAt <= at));
    assert Confident(minimum, evidence) <==> !(exists e :: e in evidence && e.assurance.confidence < minimum);
  }

  /** The planner selects the cheaper of its two candidates, for equal costs the one whose action
      comes first, and lists the other one as rejected. */
  lemma CheaperIsSelected(o: Objective, review: Candidate, hold: Candidate)
    requires review.id != hold.id && ReviewPlan(o, review, hold).Ok?
    ensures Cost(o, review).Some? && Cost(o, hold).Some?
    ensures var plan, a, b := ReviewPlan(o, review, hold).value, Cost(o, review).value, Cost(o, hold).value;
      var first := review.action == hold.action || Precedes(review.action, hold.action);
      && plan.candidates == [review, hold]
      && plan.selectedId == (if a < b || (a == b && first) then review.id else hold.id)
      && |plan.rejected| == 1 && plan.rejected[0].candidate == (if plan.selectedId == review.id then hold else review)
  {
    hide Cost, ValidPlan, Precedes, LexLe;
    StringLePrecedes(review.action, hold.action);
  }

  /** A constraint about the item: it cites the item alone, with the item's confidence, and is hard
      exactly if the measurement failed. */
  predicate Reviews(c: Constraint, e: Envelope) {
    && c.evidenceRefs == [e.assurance.digest] && c.confidence == e.assurance.confidence && c.name == ReviewRequired()
    && (c.hard <==> e.measurement.status.Failed?)
    && c.expression == JObj(map["measurement" := JStr(e.measurement.name),
                                "status" := JStr(if e.measurement.status.Failed? then "failed" else "warning")])
  }

  lemma ReviewsItsItem(naming: Naming, scope: Scope, e: Envelope)
    requires Concerning(e)
    ensures Reviews(ReviewConstraint(naming, scope, e), e)
  {
    hide ReviewRequired, IdentityText;
  }

  lemma ReviewConstraintMembers(naming: Naming, scope: Scope, evidence: seq<Envelope>)
    ensures forall c :: c in ReviewConstraints(naming, scope, evidence) ==>
              exists e :: e in evidence && Concerning(e) && c == ReviewConstraint(naming, scope, e) && Reviews(c, e)
    ensures forall e :: e in evidence && Concerning(e) ==>
              ReviewConstraint(naming, scope, e) in ReviewConstraints(naming, scope, evidence)
  {
    hide ReviewConstraint, Concerning, Reviews;
    var items, cs := ConcerningItems(evidence), ReviewConstraints(naming, scope, evidence);
    forall c | c in cs ensures exists e :: e in evidence && Concerning(e) && c == ReviewConstraint(naming, scope, e) && Reviews(c, e) {
      var i :| 0 <= i < |cs| && cs[i] == c;
      FilterMembers(Concerning, evidence, items[i]);
      ReviewsItsItem(naming, scope, items[i]);
    }
    forall e | e in evidence && Concerning(e) ensures ReviewConstraint(naming, scope, e) in cs {
      FilterMembers(Concerning, evidence, e);
      var i :| 0 <= i < |items| && items[i] == e;
      assert cs[i] == ReviewConstraint(naming, scope, e);
    }
  }

  // ----- What the generated ids bind -----

  lemma IsObject(s: Scope, items: seq<Envelope>)
    ensures PlanIdentity(s, items).JObj?
  {
    hide Sort, SubjectKey, Dedup, ScopeJson, TupleJson, Map;
  }

  lemma PlanHasNoFloats(scope: Scope, items: seq<Envelope>)
    ensures Within(PlanIdentity(scope, items), iset{})
  {
    hide Sort, SubjectKey, Dedup;
    var j := PlanIdentity(scope, items);
    TextsWithin(ScopeJson(scope).fields, iset{});
    var rows := Map(TupleJson, Sort(Map(SubjectKey, items), TupleLe));
    forall i | 0 <= i < |rows| ensures Within(rows[i], iset{}) {
    }
    assert Within(j.fields["subjects"], iset{}) && Within(j.fields["evidence_refs"], iset{});
  }

  /** The text that a candidate is named by splits into the plan's identity and the action. */
  lemma CandidateTextSplits(repr: real -> string, j: Json, action: string)
    requires j.JObj? && Within(j, iset{})
    ensures ReadValue((t: string) => None, Print(repr, j) + "|" + action) == Got(j, "|" + action)
  {
    hide ReadValue, Print;
    ObjectRead(repr, iset{}, (t: string) => None, j, "|" + action);
    assert Print(repr, j) + "|" + action == Print(repr, j) + ("|" + action);
  }

  lemma TuplesInjective(a: seq<seq<string>>, b: seq<seq<string>>)
    requires Map(TupleJson, a) == Map(TupleJson, b)
    ensures a == b
  {
    hide TupleJson;
    var x, y := Map(TupleJson, a), Map(TupleJson, b);
    assert |a| == |x| == |y| == |b|;
    forall i | 0 <= i < |a| ensures a[i] == b[i] {
      assert x[i] == TupleJson(a[i]) && y[i] == TupleJson(b[i]);
      TupleJsonInjective(a[i], b[i]);
    }
  }

  lemma PlanIdentityBinds(s: Scope, a: seq<Envelope>, t: Scope, b: seq<Envelope>)
    requires PlanIdentity(s, a) == PlanIdentity(t, b)
    ensures s == t && multiset(Map(SubjectKey, a)) == multiset(Map(SubjectKey, b))
    ensures Elements(Map(DigestOf, a)) == Elements(Map(DigestOf, b))
  {
    hide Sort, SubjectKey, Dedup, ScopeJson, TupleJson, Map;
    var x, y := PlanIdentity(s, a).fields, PlanIdentity(t, b).fields;
    assert x["scope"] == y["scope"] && x["subjects"] == y["subjects"] && x["evidence_refs"] == y["evidence_refs"];
    ScopeJsonInjective(s, t);
    var m, n := Sort(Map(SubjectKey, a), TupleLe), Sort(Map(SubjectKey, b), TupleLe);
    TuplesInjective(m, n);
    var p, q := Sort(Dedup(Map(DigestOf, a)), StringLe), Sort(Dedup(Map(DigestOf, b)), StringLe);
    TupleJsonInjective(p, q);
    SortMembers(Dedup(Map(DigestOf, a)), StringLe);
    SortMembers(Dedup(Map(DigestOf, b)), StringLe);
    assert forall d :: d in Map(DigestOf, a) <==> d in p;
    assert forall d :: d in Map(DigestOf, b) <==> d in q;
  }

  /** Two candidates have one id only if they are for one action, in one scope, about the same
      subjects and the same evidence, provided that uuid5 tells their texts apart. */
  lemma CandidateNameBinds(naming: Naming, s: Scope, a: seq<Envelope>, x: string, t: Scope, b: seq<Envelope>, y: string)
    requires CandidateName(naming, s, a, x) == CandidateName(naming, t, b, y)
    requires var p, q := Print(naming.repr, PlanIdentity(s, a)) + "|" + x, Print(naming.repr, PlanIdentity(t, b)) + "|" + y;
      naming.uuid(p) == naming.uuid(q) ==> p == q
    ensures x == y && s == t && multiset(Map(SubjectKey, a)) == multiset(Map(SubjectKey, b))
    ensures Elements(Map(DigestOf, a)) == Elements(Map(DigestOf, b))
  {
    hide PlanIdentity, Print, ReadValue, SubjectKey;
    PlanHasNoFloats(s, a);
    PlanHasNoFloats(t, b);
    IsObject(s, a);
    IsObject(t, b);
    CandidateTextSplits(naming.repr, PlanIdentity(s, a), x);
    CandidateTextSplits(naming.repr, PlanIdentity(t, b), y);
    assert ("|" + x)[1..] == x && ("|" + y)[1..] == y;
    PlanIdentityBinds(s, a, t, b);
  }

  lemma SubjectJsonInjective(x: Subject, y: Subject)
    requires SubjectJson(x) == SubjectJson(y)
    ensures x == y
  {
    var p, q := SubjectJson(x).fields, SubjectJson(y).fields;
    assert p["type"] == q["type"] && p["id"] == q["id"];
    assert "version" in p <==> "version" in q;
    assert "version" in p ==> p["version"] == q["version"];
  }

  /** Two review constraints have one id only if they are about the same item as far as it is
      identified: producer, id, digest, subject, measurement, status and confidence. */
  lemma ConstraintIdBinds(naming: Naming, scope: Scope, evidence: seq<Envelope>, e: Envelope, f: Envelope)
    requires NamesApart(naming, scope, evidence) && e in evidence && f in evidence && Concerning(e) && Concerning(f)
    requires ReviewConstraint(naming, scope, e).id == ReviewConstraint(naming, scope, f).id
    ensures IdentityOf(e) == IdentityOf(f) && e.assurance.digest == f.assurance.digest && e.assurance.confidence == f.assurance.confidence
    ensures e.measurement.name == f.measurement.name && e.measurement.status == f.measurement.status
    ensures e.subject == f.subject
  {
    hide ReviewRequired, StatusText, Print, FaithfulFloats, Within, SubjectJson, ScopeJson;
    var floats := iset x | x in evidence :: x.assurance.confidence;
    IdentityWithin(scope, e, floats);
    IdentityWithin(scope, f, floats);
    CanonicalTextDetermines(naming.repr, floats, ConstraintIdentity(scope, e), ConstraintIdentity(scope, f));
    var a, b := ConstraintIdentity(scope, e).fields, ConstraintIdentity(scope, f).fields;
    assert a["producer"] == b["producer"] && a["evidence_id"] == b["evidence_id"] && a["evidence_ref"] == b["evidence_ref"];
    assert a["measurement"] == b["measurement"] && a["hard"] == b["hard"] && a["confidence"] == b["confidence"];
    assert a["subject"] == b["subject"];
    SubjectJsonInjective(e.subject, f.subject);
  }
}
