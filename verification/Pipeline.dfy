/** The built-in ports on one kernel: what each of them answers in its place, and the decision
    of a complete call, for any evidence. */
module Pipeline {
  import opened Basics
  import opened Order
  import opened Json
  import opened Contracts
  import opened Signature
  import opened Registry
  import opened Cycle
  import opened KernelMachine
  import opened Gates
  import opened Runs
  import opened Guarantees
  import opened Lockstep
  import opened Builtin

  /** What the host adds to the built-in ports. */
  datatype Host = Host(
    naming: Naming, minimum: real, clock: nat -> Answer<Reading>, record: (nat, nat, Event, string) -> Answer<string>,
    sign: (nat, Package, string) -> Answer<seq<Byte>>, deliver: (nat, Signed) -> Answer<ProposalReceipt>)

  function Reviewed(naming: Naming, scope: Scope, evidence: seq<Envelope>): Answer<seq<Constraint>> {
    var constraints := ReviewConstraints(naming, scope, evidence);
    if forall c :: c in constraints ==> ValidConstraint(c) then Ok(constraints) else Raise("ValidationError")
  }

  function Interpreted(constraints: seq<Constraint>): Answer<Objective> {
    if ValidObjective(RiskObjective(constraints)) then Ok(RiskObjective(constraints)) else Raise("ValidationError")
  }

  function StandalonePorts(host: Host): Ports {
    Ports(host.clock, host.record,
          (t: nat, i: nat, evidence: seq<Envelope>, scope: Scope) => ConfidenceResult(host.minimum, evidence),
          (t: nat, i: nat, evidence: seq<Envelope>, policies: seq<PolicyResult>, scope: Scope) =>
            Reviewed(host.naming, scope, evidence),
          (t: nat, constraints: seq<Constraint>, policies: seq<PolicyResult>, scope: Scope) => Interpreted(constraints),
          (t: nat, evidence: seq<Envelope>, policies: seq<PolicyResult>, constraints: seq<Constraint>, o: Objective, scope: Scope) =>
            Propose(host.naming, {ReviewRequired()}, evidence, constraints, o, scope),
          (t: nat, check: string, candidate: Candidate, evidence: seq<Envelope>, scope: Scope, at: Instant) =>
            FreshnessFinding(candidate, evidence, at),
          host.sign, host.deliver)
  }

  lemma StandaloneLawful(host: Host)
    ensures Lawful(StandalonePorts(host))
  {
    hide Distinct, ValidPlan, ValidObjective, ValidConstraint, RiskObjective, Review, Hold, GovernedItems;
    hide ReviewConstraints, Confident, AllFresh, ReviewWins, FreshnessId, ReviewRequired;
  }

  // ----- Constraints -----

  ghost predicate SoundEvidence(evidence: seq<Envelope>) {
    forall e :: e in evidence ==> ValidEnvelope(e)
  }

  lemma ConstraintsAccepted(naming: Naming, scope: Scope, evidence: seq<Envelope>, d: Docket)
    requires SoundEvidence(evidence) && NamesApart(naming, scope, evidence) && Distinct(Map(IdentityOf, evidence))
    requires d.evidence == evidence
    ensures var cs := ReviewConstraints(naming, scope, evidence);
      && Reviewed(naming, scope, evidence) == Ok(cs) && ConstraintsInside(cs, Known(d))
      && Distinct(Map(ConstraintId, cs)) && (cs == [] <==> forall e :: e in evidence ==> !Concerning(e))
  {
    hide NamesApart, Concerning, ReviewConstraints, IdentityText, ReviewRequired, StatusText;
    var cs := ReviewConstraints(naming, scope, evidence);
    ReviewConstraintMembers(naming, scope, evidence);
    ConstraintIdsDistinct(naming, scope, evidence);
    forall c | c in cs ensures ValidConstraint(c) && Inside(c.evidenceRefs, Known(d)) {
      var e :| e in evidence && Concerning(e) && c == ReviewConstraint(naming, scope, e);
      DigestKnown(d, e);
    }
    forall e | e in evidence && Concerning(e) ensures cs != [] {
      assert ReviewConstraint(naming, scope, e) in cs;
    }
    assert cs != [] ==> cs[0] in cs;
  }

  lemma DigestKnown(d: Docket, e: Envelope)
    requires e in d.evidence
    ensures e.assurance.digest in Known(d)
  {
    var i :| 0 <= i < |d.evidence| && d.evidence[i] == e;
    assert Map(DigestOf, d.evidence)[i] == e.assurance.digest;
  }

  // ----- Objective -----

  lemma {:induction false} CitedMembers(cs: seq<Constraint>, r: string)
    ensures r in CitedRefs(cs) <==> exists c :: c in cs && r in c.evidenceRefs
  {
    if cs != [] {
      CitedMembers(cs[..|cs| - 1], r);
      assert cs == cs[..|cs| - 1] + [cs[|cs| - 1]];
    }
  }

  function RiskTerms(a: string, b: string): seq<Term> {
    [Term(a, 2.0 / 3.0), Term(b, 1.0 / 3.0)]
  }

  lemma WeightsAddUp(a: string, b: string)
    requires a != b
    ensures Map(TermName, RiskTerms(a, b)) == [a, b] && Distinct(Map(TermName, RiskTerms(a, b)))
    ensures TotalWeight(RiskTerms(a, b)) == 1.0
    ensures exists t :: t in RiskTerms(a, b) && t.weight > 0.0
  {
    var terms := RiskTerms(a, b);
    assert terms[1..] == [terms[1]] && terms[1..][1..] == [];
    assert TotalWeight(terms[1..]) == 1.0 / 3.0;
    assert Map(TermName, terms) == [a, b];
    assert terms[0] in terms && terms[0].weight > 0.0;
  }

  lemma TwoTermSum(a: string, b: string, values: map<string, real>)
    requires a in values && b in values
    ensures WeightedSum(RiskTerms(a, b), values) == 2.0 / 3.0 * values[a] + 1.0 / 3.0 * values[b]
  {
    var terms := RiskTerms(a, b);
    assert terms[1..] == [terms[1]] && terms[1..][1..] == [];
    assert WeightedSum(terms[1..], values) == Share(terms[1], values);
  }

  lemma TwoTermCost(o: Objective, a: string, b: string, c: Candidate, x: real, y: real)
    requires a != b && o.terms == RiskTerms(a, b) && c.objectiveValues == map[a := x, b := y]
    ensures Cost(o, c) == Some(2.0 / 3.0 * x + 1.0 / 3.0 * y)
  {
    hide WeightedSum, TotalWeight, Share;
    WeightsAddUp(a, b);
    TwoTermSum(a, b, c.objectiveValues);
    assert c.objectiveValues.Keys == {a, b} == Elements([a, b]);
  }

  lemma CitedKnown(d: Docket)
    requires ConstraintsKept(d) && d.constraints != []
    ensures CitedRefs(d.constraints) != [] && Inside(CitedRefs(d.constraints), Known(d))
  {
    hide Known, CitedRefs;
    var first := d.constraints[0];
    assert first in d.constraints;
    CitedMembers(d.constraints, first.evidenceRefs[0]);
    forall r | r in CitedRefs(d.constraints) ensures r in Known(d) {
      CitedMembers(d.constraints, r);
    }
  }

  lemma ObjectiveAccepted(d: Docket)
    requires ConstraintsKept(d) && d.constraints != [] && Distinct(Map(ConstraintId, d.constraints))
    ensures Interpreted(d.constraints) == Ok(RiskObjective(d.constraints)) && ObjectiveFits(d, RiskObjective(d.constraints))
  {
    hide RiskTerm, InterventionTerm, Known, TotalWeight, CitedRefs, ConstraintsKept, Dedup, Distinct;
    var o := RiskObjective(d.constraints);
    NamesDiffer();
    WeightsAddUp(RiskTerm(), InterventionTerm());
    CitedKnown(d);
    assert o.terms == RiskTerms(RiskTerm(), InterventionTerm());
    assert CitedRefs(d.constraints)[0] in o.evidenceRefs;
    assert |o.constraintIds| == |d.constraints|;
  }

  // ----- Plan -----

  lemma GovernedMembers(names: set<string>, cs: seq<Constraint>, evidence: seq<Envelope>, e: Envelope)
    ensures e in GovernedItems(names, cs, evidence) <==> e in evidence && GovernedBy(names, cs, e)
  {
    hide GovernedBy;
    FilterMembers((x: Envelope) => GovernedBy(names, cs, x), evidence, e);
  }

  /** The rest of what the naming library is trusted for: a request for review and a hold of
      the same items do not share an id. */
  ghost predicate ActionsApart(naming: Naming, scope: Scope, evidence: seq<Envelope>) {
    forall items :: multiset(items) <= multiset(evidence) ==>
      CandidateName(naming, scope, items, RequestReview()) != CandidateName(naming, scope, items, HoldAction())
  }

  lemma CandidateIsValid(c: Candidate, a: string, b: string, x: real, y: real)
    requires a != b && c.objectiveValues == map[a := x, b := y] && 0.0 <= x <= 1.0 && 0.0 <= y <= 1.0
    requires c.constraintRefs != [] && Distinct(c.constraintRefs) && c.evidenceRefs != [] && Distinct(c.evidenceRefs)
    ensures ValidCandidate(c)
  {
    hide Distinct;
    assert a in c.objectiveValues;
  }

  lemma CandidatesValid(naming: Naming, scope: Scope, items: seq<Envelope>, cs: seq<Constraint>)
    requires items != [] && cs != [] && Distinct(Map(ConstraintId, cs))
    ensures ValidCandidate(Review(naming, scope, items, cs)) && ValidCandidate(Hold(naming, scope, items, cs))
  {
    hide RiskTerm, InterventionTerm, RequestReview, HoldAction, CandidateName, Sort, Dedup, Distinct;
    hide ValidCandidate;
    NamesDiffer();
    assert Map(DigestOf, items)[0] in Dedup(Map(DigestOf, items));
    CandidateIsValid(Review(naming, scope, items, cs), RiskTerm(), InterventionTerm(), 0.4, 0.2);
    CandidateIsValid(Hold(naming, scope, items, cs), RiskTerm(), InterventionTerm(), 0.1, 1.0);
  }

  /** Reviewing costs a third, holding two fifths; the review is selected. */
  lemma PlanAccepted(o: Objective, review: Candidate, hold: Candidate)
    requires o.terms == RiskTerms(RiskTerm(), InterventionTerm())
    requires review.objectiveValues == map[RiskTerm() := 0.4, InterventionTerm() := 0.2]
    requires hold.objectiveValues == map[RiskTerm() := 0.1, InterventionTerm() := 1.0]
    requires ValidCandidate(review) && ValidCandidate(hold) && review.id != hold.id
    ensures Cost(o, review) == Some(1.0 / 3.0) && Cost(o, hold) == Some(2.0 / 5.0)
    ensures ReviewPlan(o, review, hold).Ok?
    ensures var p := ReviewPlan(o, review, hold).value;
      && p.candidates == [review, hold] && p.selectedId == review.id && ValidPlan(p)
      && Priced(o, p.candidates) && review in p.candidates && Cheapest(o, review, p.candidates)
      && review.id in Map(CandidateId, p.candidates) && Selected(p.candidates, review.id) == review
  {
    hide RiskTerm, InterventionTerm, ValidCandidate, Cost;
    NamesDiffer();
    TwoTermCost(o, RiskTerm(), InterventionTerm(), review, 0.4, 0.2);
    TwoTermCost(o, RiskTerm(), InterventionTerm(), hold, 0.1, 1.0);
    var rejected := [RejectedAlternative(hold, "the weighted objective cost exceeds the selected cost")];
    PairPlanValid(review, hold, rejected[0]);
    assert ReviewPlan(o, review, hold) == Ok(Plan([review, hold], review.id, rejected));
    assert review in [review, hold];
  }

  lemma PairPlanValid(review: Candidate, hold: Candidate, r: RejectedAlternative)
    requires ValidCandidate(review) && ValidCandidate(hold) && review.id != hold.id && r.candidate == hold
    ensures ValidPlan(Plan([review, hold], review.id, [r]))
    ensures review.id in Map(CandidateId, [review, hold]) && Selected([review, hold], review.id) == review
  {
    hide ValidCandidate;
    var ids, rejectedIds := Map(CandidateId, [review, hold]), Map(RejectedId, [r]);
    assert ids == [review.id, hold.id] && rejectedIds == [hold.id];
    assert Elements(ids) == {review.id, hold.id} && Elements(rejectedIds) == {hold.id};
    assert ids[0] in ids;
  }

  function SubjectIds(items: seq<Envelope>): seq<string> {
    Sort(Dedup(Map(SubjectId, items)), StringLe)
  }

  lemma SubjectIdsListed(items: seq<Envelope>)
    requires items != []
    ensures SubjectIds(items) != [] && Distinct(SubjectIds(items))
    ensures forall x :: x in SubjectIds(items) ==> exists e :: e in items && x == e.subject.id
  {
    hide Sort, Distinct;
    var all := Map(SubjectId, items);
    var ids := Dedup(all);
    assert all[0] in ids;
    SortMembers(ids, StringLe);
    assert all[0] in SubjectIds(items);
    DistinctPermuted(ids, Sort(ids, StringLe));
    forall x | x in SubjectIds(items) ensures exists e :: e in items && x == e.subject.id {
      assert x in all;
      var i :| 0 <= i < |all| && all[i] == x;
      assert items[i] in items && SubjectId(items[i]) == items[i].subject.id;
    }
  }

  lemma TextsListed(xs: seq<string>)
    requires xs != [] && Distinct(xs) && forall x :: x in xs ==> x != ""
    ensures HoldParameters(map["subject_ids" := TupleJson(xs)])
  {
    hide Distinct;
    DistinctMap(TextJson, xs);
    var p: map<string, Json> := map["subject_ids" := TupleJson(xs)];
    var texts := Map(TextJson, xs);
    forall t | t in texts ensures t.JStr? && t.s != "" {
      var i :| 0 <= i < |xs| && texts[i] == t;
      assert t == TextJson(xs[i]) && xs[i] in xs;
    }
    assert p["subject_ids"] == JArr(texts) && p.Keys == {"subject_ids"};
  }

  lemma SubjectsListed(items: seq<Envelope>)
    requires items != [] && SoundEvidence(items)
    ensures HoldParameters(map["subject_ids" := TupleJson(SubjectIds(items))])
  {
    hide Distinct, SubjectIds, HoldParameters, ValidMetadata, ValidMeasurement;
    SubjectIdsListed(items);
    TextsListed(SubjectIds(items));
  }

  lemma BothAdmitted(setup: Setup, review: Candidate, hold: Candidate)
    requires ReadsSchemas(setup.conforms) && setup.definitions == StandaloneDefinitions()
    requires review.action == RequestReview() && review.consequence.Medium? && ReviewParameters(review.parameters)
    requires hold.action == HoldAction() && hold.consequence.High? && HoldParameters(hold.parameters)
    ensures Admitting(setup.definitions, setup.conforms, hold).Some?
    ensures Admitting(setup.definitions, setup.conforms, review).Some?
    ensures Admitting(setup.definitions, setup.conforms, review).value.checks == [FreshnessId()]
  {
    hide RequestReview, HoldAction, ReviewSchema, HoldSchema, FreshnessId, ReviewParameters, HoldParameters;
    NamesDiffer();
  }

  lemma StandaloneWellFiled()
    ensures WellFiled(StandaloneDefinitions())
  {
    hide RequestReview, HoldAction, ReviewSchema, HoldSchema, FreshnessId;
  }

  ghost predicate StandaloneSetup(setup: Setup) {
    && setup.policies == 1 && setup.classifiers == 1 && setup.checks == {FreshnessId()} && setup.ttl > 0
    && setup.definitions == StandaloneDefinitions() && ReadsSchemas(setup.conforms) && Sized(setup.keyId, 512)
  }

  function Items(d: Docket): seq<Envelope> {
    GovernedItems({ReviewRequired()}, d.constraints, d.evidence)
  }

  /** The constraints are those of the classifier, in some order. */
  ghost predicate ReviewDocket(naming: Naming, d: Docket) {
    && d.constraints != [] && Distinct(Map(ConstraintId, d.constraints))
    && (forall c :: c in d.constraints <==> c in ReviewConstraints(naming, d.scope, d.evidence))
  }

  lemma SomethingGoverned(naming: Naming, d: Docket)
    requires ReviewDocket(naming, d)
    ensures Items(d) != [] && (forall e :: e in Items(d) ==> e in d.evidence)
    ensures multiset(Items(d)) <= multiset(d.evidence)
  {
    hide ReviewRequired, IdentityText, StatusText, Concerning, ReviewConstraints, Distinct;
    var c := d.constraints[0];
    assert c in d.constraints;
    ReviewConstraintMembers(naming, d.scope, d.evidence);
    var e :| e in d.evidence && Concerning(e) && c == ReviewConstraint(naming, d.scope, e);
    assert e.assurance.digest in c.evidenceRefs;
    GovernedMembers({ReviewRequired()}, d.constraints, d.evidence, e);
    FilterMultiset((x: Envelope) => GovernedBy({ReviewRequired()}, d.constraints, x), d.evidence);
    forall x | x in Items(d) ensures x in d.evidence {
      GovernedMembers({ReviewRequired()}, d.constraints, d.evidence, x);
    }
  }

  lemma RefsKnown(d: Docket, items: seq<Envelope>)
    requires forall e :: e in items ==> e in d.evidence
    ensures Inside(Dedup(Map(DigestOf, items)), Known(d))
  {
    hide Known;
    var refs := Map(DigestOf, items);
    forall r | r in refs ensures r in Known(d) {
      var i :| 0 <= i < |items| && refs[i] == r;
      assert items[i] in items;
      DigestKnown(d, items[i]);
    }
  }

  /** A candidate that cites governed items and every constraint fits the cycle. */
  lemma CandidateFits(setup: Setup, d: Docket, c: Candidate)
    requires Inside(c.evidenceRefs, Known(d)) && c.constraintRefs == Map(ConstraintId, d.constraints)
    requires Admitting(setup.definitions, setup.conforms, c).Some?
    ensures CandidatesFit(setup, d, [c]) && Covers(c, d.constraints)
  {
    hide Known, Admitting;
    forall k | k in d.constraints ensures k.id in c.constraintRefs {
      var i :| 0 <= i < |d.constraints| && d.constraints[i] == k;
      assert Map(ConstraintId, d.constraints)[i] == k.id;
    }
  }

  lemma PlanFitsCycle(setup: Setup, naming: Naming, d: Docket)
    requires StandaloneSetup(setup) && ReviewDocket(naming, d) && SoundEvidence(d.evidence)
    requires ActionsApart(naming, d.scope, d.evidence)
    ensures var o := RiskObjective(d.constraints);
      var answer := Propose(naming, {ReviewRequired()}, d.evidence, d.constraints, o, d.scope);
      && answer.Ok? && answer.value.Some? && PlanFits(setup, d, o, answer.value.value)
      && var plan := answer.value.value; var review := Review(naming, d.scope, Items(d), d.constraints);
         && plan.selectedId == review.id && review.id in Map(CandidateId, plan.candidates)
         && plan.candidates == [review, Hold(naming, d.scope, Items(d), d.constraints)]
         && Selected(plan.candidates, review.id) == review
         && Admitting(setup.definitions, setup.conforms, review).Some?
         && Admitting(setup.definitions, setup.conforms, review).value.checks == [FreshnessId()]
  {
    hide ReviewRequired, RequestReview, HoldAction, RiskTerm, InterventionTerm, FreshnessId, CandidateName;
    hide Dedup, Distinct, GovernedItems, ReviewPlan, StandaloneDefinitions, ReadsSchemas, SoundEvidence, Known;
    hide Inside, Admitting, Cost, CitedRefs, TupleJson, Sort, ReviewConstraints, HoldParameters, ValidPlan;
    hide Selected, SubjectId, DigestOf;
    var o, items := RiskObjective(d.constraints), Items(d);
    var review, hold := Review(naming, d.scope, items, d.constraints), Hold(naming, d.scope, items, d.constraints);
    SomethingGoverned(naming, d);
    RefsKnown(d, items);
    CandidatesValid(naming, d.scope, items, d.constraints);
    SoundItems(d.evidence, items);
    SubjectsListed(items);
    BothAdmitted(setup, review, hold);
    PlanAccepted(o, review, hold);
    CandidateFits(setup, d, review);
    CandidateFits(setup, d, hold);
    assert review in [review] && hold in [hold];
  }

  lemma SoundItems(evidence: seq<Envelope>, items: seq<Envelope>)
    requires SoundEvidence(evidence) && forall e :: e in items ==> e in evidence
    ensures SoundEvidence(items)
  {
    hide ValidEnvelope;
  }
}
