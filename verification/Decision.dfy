/** The decision of the standalone kernel: which way a complete call goes, for any evidence. */
module Decision {
  import opened Basics
  import opened Order
  import opened Json
  import opened JsonReader
  import opened CanonicalText
  import opened Contracts
  import opened Signature
  import opened Registry
  import opened Cycle
  import opened KernelMachine
  import opened Gates
  import opened Runs
  import opened Guarantees
  import opened Lockstep
  import opened Builtin
  import opened Pipeline

  /** A host whose own ports do not fail: recorders that write, a signer that signs with its
      key, a sink that acknowledges what it got. */
  ghost predicate Dependable(host: Host, keyId: string) {
    && (forall t, i, e, c :: host.record(t, i, e, c).Ok?)
    && (forall t, p :: host.sign(t, p, keyId).Ok? && |host.sign(t, p, keyId).value| == 64)
    && (forall t, s :: host.deliver(t, s) == Ok(Acknowledged(s)))
  }

  // ----- Walking through a run -----

  ghost predicate EndsAs(m: Run, status: KernelStatus) {
    m.phase.Finished? && m.phase.result.status == status
  }

  lemma {:induction false} WriteOut(setup: Setup, ports: Ports, cache: Cache, m: Run, calls: nat) returns (m': Run, calls': nat)
    requires m.phase.Recording? && Resumes(m.phase.next) && |m.phase.receipts| <= setup.recorders
    requires RecordersNeverRaise(ports)
    ensures Leads(setup, ports, cache, m, calls, cache, m', calls')
    ensures m'.docket == m.docket && m'.phase == m.phase.next
    decreases setup.recorders - |m.phase.receipts|
  {
    hide Drive, Holds, Lawful, Correlation, Resumes;
    var Recording(event, receipts, next) := m.phase;
    if |receipts| == setup.recorders {
      RecordersDone(setup, ports, cache, m, calls);
      m', calls' := Wrote(m, event, receipts, next), calls;
    } else {
      RecorderAsked(setup, ports, cache, m, calls);
      var r := ports.record(calls, |receipts|, event, Correlation(m.docket)).value;
      m', calls' := WriteOut(setup, ports, cache, m.(phase := Recording(event, receipts + [r], next)), calls + 1);
    }
  }

  lemma RejectOut(setup: Setup, ports: Ports, cache: Cache, m: Run, calls: nat) returns (cache': Cache, m': Run, calls': nat)
    requires m.phase.Reject? && RecordersNeverRaise(ports)
    ensures Leads(setup, ports, cache, m, calls, cache', m', calls')
    ensures EndsAs(m', CauseStatus(m.phase.cause))
  {
    hide Drive, Holds, Lawful, Correlation, CauseReasons, CauseStatus, RecordersNeverRaise;
    var cause := m.phase.cause;
    RejectLeads(setup, ports, cache, m, calls, cause);
    m', calls' := WriteOut(setup, ports, cache, RejectStep(m, cause), calls);
    CacheRejectionLeads(setup, ports, cache, m', calls', cause);
    var p := CacheRejectionStep(cache, m', cause);
    cache', m' := p.cache, p.run;
  }

  predicate Admissible(e: Envelope, scope: Scope, now: Instant) {
    e.scope == scope && FreshAt(e, now)
  }

  predicate AllAdmissible(evidence: seq<Envelope>, scope: Scope, now: Instant) {
    forall e :: e in evidence ==> Admissible(e, scope, now)
  }

  lemma {:induction false} EvidenceOut(setup: Setup, ports: Ports, cache: Cache, m: Run, calls: nat, i: nat)
    returns (cache': Cache, m': Run, calls': nat)
    requires m.phase == Evidence(i) && i <= |m.docket.evidence| && RecordersNeverRaise(ports)
    requires forall k :: 0 <= k < i ==> Admissible(m.docket.evidence[k], m.docket.scope, m.docket.now)
    ensures Leads(setup, ports, cache, m, calls, cache', m', calls')
    ensures if AllAdmissible(m.docket.evidence, m.docket.scope, m.docket.now)
            then cache' == cache && m'.docket == m.docket && m'.phase == Policy(0)
            else EndsAs(m', Declined)
    decreases |m.docket.evidence| - i
  {
    hide Drive, Holds, Lawful, Correlation, ScopeReason, StaleReason, RecordersNeverRaise, FreshAt;
    var d := m.docket;
    EvidenceLeads(setup, ports, cache, m, calls, i);
    var next := EvidenceStep(m, i);
    if i == |d.evidence| {
      cache', m', calls' := cache, next, calls;
      AllOfThem(d.evidence, d.scope, d.now);
    } else {
      m', calls' := WriteOut(setup, ports, cache, next, calls);
      if Admissible(d.evidence[i], d.scope, d.now) {
        cache', m', calls' := EvidenceOut(setup, ports, cache, m', calls', i + 1);
      } else {
        cache', m', calls' := RejectOut(setup, ports, cache, m', calls');
        assert d.evidence[i] in d.evidence;
      }
    }
  }

  lemma AllOfThem(evidence: seq<Envelope>, scope: Scope, now: Instant)
    ensures (forall k :: 0 <= k < |evidence| ==> Admissible(evidence[k], scope, now)) ==> AllAdmissible(evidence, scope, now)
  {
    hide Admissible;
  }

  lemma PolicyAnswer(setup: Setup, host: Host, m: Run, calls: nat)
    requires m.phase == Policy(0) && m.docket.policies == [] && setup.policies == 1
    ensures var d := m.docket;
      var next := PolicyStep(setup, m, 0, PolicySays(StandalonePorts(host).evaluate(calls, 0, d.evidence, d.scope)));
      var r := ConfidenceResult(host.minimum, d.evidence);
      && (!Distinct(Map(DigestOf, d.evidence)) ==> next.phase.Raised?)
      && (Distinct(Map(DigestOf, d.evidence)) ==>
            next == m.(docket := d.(policies := [r.value]), phase := Recording(PolicyEvaluated(r.value), [], Policy(1))))
  {
    hide Distinct, Confident, Propose, FreshnessFinding, Interpreted, Reviewed, CauseReasons;
  }

  lemma PolicyVerdict(setup: Setup, m: Run, r: PolicyResult)
    requires m.phase == Policy(1) && m.docket.policies == [r] && setup.policies == 1
    ensures PolicyStep(setup, m, 1, Silent) == m.(phase := if r.allowed then Classify(0) else Reject(Denied))
  {
    hide Inside, Known, CauseReasons;
    assert r in m.docket.policies;
  }

  lemma PolicyOut(setup: Setup, host: Host, cache: Cache, m: Run, calls: nat) returns (cache': Cache, m': Run, calls': nat)
    requires m.phase == Policy(0) && m.docket.policies == [] && StandaloneSetup(setup)
    requires RecordersNeverRaise(StandalonePorts(host))
    ensures Leads(setup, StandalonePorts(host), cache, m, calls, cache', m', calls')
    ensures if !Distinct(Map(DigestOf, m.docket.evidence)) then m'.phase.Raised?
            else if !Confident(host.minimum, m.docket.evidence) then EndsAs(m', Declined)
            else cache' == cache && m'.phase == Classify(0) && m'.docket == m.docket.(policies := m'.docket.policies)
  {
    hide Drive, Holds, Lawful, RecordersNeverRaise, Confident, FreshnessId, StandaloneDefinitions, ReadsSchemas;
    hide PolicyStep, Distinct, StandalonePorts, Map;
    var ports, d := StandalonePorts(host), m.docket;
    PolicyLeads(setup, ports, cache, m, calls, 0);
    PolicyAnswer(setup, host, m, calls);
    var next := PolicyStep(setup, m, 0, PolicySays(ports.evaluate(calls, 0, d.evidence, d.scope)));
    if !Distinct(Map(DigestOf, d.evidence)) {
      cache', m', calls' := cache, next, calls + 1;
    } else {
      m', calls' := WriteOut(setup, ports, cache, next, calls + 1);
      PoliciesLead(setup, ports, cache, m', calls', 1);
      PolicyVerdict(setup, m', ConfidenceResult(host.minimum, d.evidence).value);
      cache', m' := cache, PolicyStep(setup, m', 1, Silent);
      if !Confident(host.minimum, d.evidence) {
        cache', m', calls' := RejectOut(setup, ports, cache, m', calls');
      }
    }
  }

  lemma ClassifierAnswer(setup: Setup, host: Host, m: Run, calls: nat)
    requires m.phase == Classify(0) && m.docket.constraints == [] && setup.classifiers == 1
    requires SoundEvidence(m.docket.evidence) && NamesApart(host.naming, m.docket.scope, m.docket.evidence)
    requires Distinct(Map(IdentityOf, m.docket.evidence))
    ensures var d := m.docket; var cs := ReviewConstraints(host.naming, d.scope, d.evidence);
      ClassifyStep(setup, m, 0, ClassifierSays(StandalonePorts(host).classify(calls, 0, d.evidence, d.policies, d.scope)))
      == m.(docket := d.(constraints := cs), phase := Classify(1))
  {
    hide NamesApart, SoundEvidence, ReviewConstraints, ConstraintsInside, Known, Reviewed, Propose;
    hide FreshnessFinding, Interpreted, SortConstraints;
    ConstraintsAccepted(host.naming, m.docket.scope, m.docket.evidence, m.docket);
    assert [] + ReviewConstraints(host.naming, m.docket.scope, m.docket.evidence)
        == ReviewConstraints(host.naming, m.docket.scope, m.docket.evidence);
  }

  lemma {:induction false} ConstraintsOut(setup: Setup, ports: Ports, cache: Cache, m: Run, calls: nat, i: nat)
    returns (m': Run, calls': nat)
    requires m.phase == KernelMachine.Classified(i) && i <= |m.docket.constraints| && RecordersNeverRaise(ports)
    ensures Leads(setup, ports, cache, m, calls, cache, m', calls')
    ensures m'.docket == m.docket && m'.phase == Interpret
    decreases |m.docket.constraints| - i
  {
    hide Drive, Holds, Lawful, RecordersNeverRaise;
    ClassifiedLeads(setup, ports, cache, m, calls, i);
    m', calls' := ClassifiedStep(m, i), calls;
    if i < |m.docket.constraints| {
      m', calls' := WriteOut(setup, ports, cache, m', calls');
      m', calls' := ConstraintsOut(setup, ports, cache, m', calls', i + 1);
    }
  }

  predicate NothingConcerning(evidence: seq<Envelope>) {
    forall e :: e in evidence ==> !Concerning(e)
  }

  lemma SortedReviewDocket(naming: Naming, d: Docket)
    requires var cs := ReviewConstraints(naming, d.scope, d.evidence);
      d.constraints == SortConstraints(cs) && cs != [] && Distinct(Map(ConstraintId, cs))
    ensures ReviewDocket(naming, d)
  {
    hide ReviewConstraints;
    var cs := ReviewConstraints(naming, d.scope, d.evidence);
    SortMembers(cs, ByKey(ConstraintKey, TupleLe));
    MapPermuted(ConstraintId, cs, d.constraints);
    DistinctPermuted(Map(ConstraintId, cs), Map(ConstraintId, d.constraints));
  }

  lemma ClassifyOut(setup: Setup, host: Host, cache: Cache, m: Run, calls: nat) returns (cache': Cache, m': Run, calls': nat)
    requires m.phase == Classify(0) && m.docket.constraints == [] && StandaloneSetup(setup)
    requires SoundEvidence(m.docket.evidence) && NamesApart(host.naming, m.docket.scope, m.docket.evidence)
    requires Distinct(Map(IdentityOf, m.docket.evidence)) && RecordersNeverRaise(StandalonePorts(host))
    ensures Leads(setup, StandalonePorts(host), cache, m, calls, cache', m', calls')
    ensures if NothingConcerning(m.docket.evidence) then EndsAs(m', NoCandidate)
            else cache' == cache && m'.phase == Interpret && ReviewDocket(host.naming, m'.docket)
                 && m'.docket == m.docket.(constraints := m'.docket.constraints)
  {
    hide Drive, Holds, Lawful, RecordersNeverRaise, NamesApart, SoundEvidence, ReviewConstraints, ReviewDocket;
    hide Concerning, StandaloneDefinitions, ReadsSchemas, FreshnessId, StandalonePorts, Distinct, Map;
    hide SortConstraints, ConstraintsInside, Reviewed, Known, NoConstraintsReason;
    var ports, d := StandalonePorts(host), m.docket;
    var cs := ReviewConstraints(host.naming, d.scope, d.evidence);
    ClassifierLeads(setup, ports, cache, m, calls, 0);
    ClassifierAnswer(setup, host, m, calls);
    ConstraintsAccepted(host.naming, d.scope, d.evidence, d);
    m' := m.(docket := d.(constraints := cs), phase := Classify(1));
    ClassifiersLead(setup, ports, cache, m', calls + 1, 1);
    cache', m', calls' := cache, ClassifyStep(setup, m', 1, Silent), calls + 1;
    if cs == [] {
      cache', m', calls' := RejectOut(setup, ports, cache, m', calls');
    } else {
      SortedReviewDocket(host.naming, m'.docket);
      m', calls' := ConstraintsOut(setup, ports, cache, m', calls', 0);
    }
  }

  lemma SameReview(naming: Naming, d: Docket, e: Docket)
    requires ReviewDocket(naming, d) && e.constraints == d.constraints && e.scope == d.scope && e.evidence == d.evidence
    ensures ReviewDocket(naming, e)
  {
    hide ReviewConstraints;
  }

  lemma InterpretOut(setup: Setup, host: Host, cache: Cache, m: Run, calls: nat) returns (m': Run, calls': nat)
    requires m.phase.Interpret? && ReviewDocket(host.naming, m.docket) && ConstraintsKept(m.docket)
    requires RecordersNeverRaise(StandalonePorts(host))
    ensures Leads(setup, StandalonePorts(host), cache, m, calls, cache, m', calls')
    ensures m'.phase == Planning && m'.docket == m.docket.(objective := Some(RiskObjective(m.docket.constraints)))
  {
    hide Drive, Holds, Lawful, RecordersNeverRaise, ConstraintsKept, RiskObjective, ReviewConstraints;
    hide ObjectiveFits, ConfidenceResult, Reviewed, Propose, FreshnessFinding, Interpreted, Distinct;
    ObjectiveAccepted(m.docket);
    InterpreterLeads(setup, StandalonePorts(host), cache, m, calls);
    var o := RiskObjective(m.docket.constraints);
    var next := InterpretStep(m, InterpreterSays(Ok(o)));
    m', calls' := WriteOut(setup, StandalonePorts(host), cache, next, calls + 1);
  }

  /** The plan of the built-in planner is in the docket. */
  ghost predicate ReviewPlanned(setup: Setup, naming: Naming, d: Docket) {
    && Planned(setup, d) && RequiredChecks(setup, d) == [FreshnessId()]
    && Choice(d) == Review(naming, d.scope, Items(d), d.constraints)
    && d.plan.value.candidates == [Choice(d), Hold(naming, d.scope, Items(d), d.constraints)]
  }

  lemma PlanOut(setup: Setup, host: Host, cache: Cache, m: Run, calls: nat) returns (m': Run, calls': nat)
    requires m.phase.Planning? && StandaloneSetup(setup) && ReviewDocket(host.naming, m.docket)
    requires m.docket.objective == Some(RiskObjective(m.docket.constraints))
    requires SoundEvidence(m.docket.evidence) && ActionsApart(host.naming, m.docket.scope, m.docket.evidence)
    ensures Leads(setup, StandalonePorts(host), cache, m, calls, cache, m', calls')
    ensures m'.phase == Challenge(0) && m'.docket == m.docket.(plan := m'.docket.plan) && ReviewPlanned(setup, host.naming, m'.docket)
  {
    hide Drive, Holds, Lawful, RiskObjective, ReviewDocket, SoundEvidence, ActionsApart, StandaloneSetup;
    hide PlanFits, Propose, ConfidenceResult, Reviewed, FreshnessFinding, Interpreted, Admitting;
    hide ReviewRequired, FreshnessId, Review, Items;
    PlanFitsCycle(setup, host.naming, m.docket);
    PlannerLeads(setup, StandalonePorts(host), cache, m, calls);
    var answer := Propose(host.naming, {ReviewRequired()}, m.docket.evidence, m.docket.constraints,
                          RiskObjective(m.docket.constraints), m.docket.scope);
    m', calls' := PlanningStep(setup, m, PlannerSays(answer)), calls + 1;
    SameItems(m.docket, m'.docket);
  }

  lemma SameItems(d: Docket, e: Docket)
    requires e.constraints == d.constraints && e.evidence == d.evidence
    ensures Items(d) == Items(e)
  {
    hide GovernedItems, ReviewRequired;
  }

  lemma CheckAnswer(setup: Setup, host: Host, m: Run, calls: nat)
    requires m.phase == Challenge(0) && m.docket.findings == [] && ReviewPlanned(setup, host.naming, m.docket)
    requires Distinct(Map(DigestOf, m.docket.evidence)) && AllFresh(m.docket.evidence, m.docket.now)
    ensures var d := m.docket; var f := FreshnessFinding(Choice(d), d.evidence, d.now);
      && f.Ok? && f.value.verdict.Survives?
      && ChallengeStep(setup, m, 0, CheckSays(StandalonePorts(host).challenge(calls, FreshnessId(), Choice(d), d.evidence, d.scope, d.now)))
      == m.(docket := d.(findings := [f.value]), phase := Recording(FalsificationCompleted(f.value), [], Challenge(1)))
  {
    hide Distinct, AllFresh, FreshnessId, Review, Items, Admitting, Selected, ConfidenceResult, Reviewed;
    hide Propose, Interpreted, Coherent, BuildPackage, AllSurvive, CauseReasons;
    assert FindingFits(m.docket, FreshnessFinding(Choice(m.docket), m.docket.evidence, m.docket.now).value,
                       Choice(m.docket).id, FreshnessId());
    assert [] + [FreshnessFinding(Choice(m.docket), m.docket.evidence, m.docket.now).value]
        == [FreshnessFinding(Choice(m.docket), m.docket.evidence, m.docket.now).value];
  }

  lemma FindingKeepsPlan(setup: Setup, naming: Naming, d: Docket, f: Finding)
    requires ReviewPlanned(setup, naming, d)
    ensures ReviewPlanned(setup, naming, d.(findings := [f]))
    ensures Choice(d.(findings := [f])) == Choice(d)
  {
    hide Admitting, Review, FreshnessId;
    SameItems(d, d.(findings := [f]));
  }

  lemma ChallengeOut(setup: Setup, host: Host, cache: Cache, m: Run, calls: nat) returns (m': Run, calls': nat)
    requires m.phase == Challenge(0) && m.docket.findings == [] && ReviewPlanned(setup, host.naming, m.docket) && ValidSetup(setup)
    requires Distinct(Map(DigestOf, m.docket.evidence)) && AllFresh(m.docket.evidence, m.docket.now)
    requires CollisionFree(setup.hash, m.docket.evidence) && Holds(setup, m) && RecordersNeverRaise(StandalonePorts(host))
    ensures Leads(setup, StandalonePorts(host), cache, m, calls, cache, m', calls')
    ensures m'.docket == m.docket.(findings := m'.docket.findings) && ReviewPlanned(setup, host.naming, m'.docket)
    ensures m'.phase == Signing(BuildPackage(setup, m'.docket))
  {
    hide Drive, Holds, Lawful, RecordersNeverRaise, Distinct, AllFresh, CollisionFree, FreshnessId, Review;
    hide Items, Admitting, Selected, StandalonePorts, FreshnessFinding, ChallengeStep, ValidSetup, BuildPackage;
    var ports, d := StandalonePorts(host), m.docket;
    CheckLeads(setup, ports, cache, m, calls, 0);
    CheckAnswer(setup, host, m, calls);
    StandaloneLawful(host);
    var f := FreshnessFinding(Choice(d), d.evidence, d.now).value;
    FindingKeepsPlan(setup, host.naming, d, f);
    var next := m.(docket := d.(findings := [f]), phase := Recording(FalsificationCompleted(f), [], Challenge(1)));
    m', calls' := WriteOut(setup, ports, cache, next, calls + 1);
    assert AllSurvive(m'.docket.findings);
    ChecksLead(setup, ports, cache, m', calls', 1);
    ConstructionNeverFails(setup, m', 1, Silent);
    OnlyThePhaseChanges(setup, m', 1);
    m' := ChallengeStep(setup, m', 1, Silent);
  }

  lemma OnlyThePhaseChanges(setup: Setup, m: Run, i: nat)
    requires m.phase == Challenge(i)
    ensures ChallengeStep(setup, m, i, Silent).docket == m.docket
  {
    hide Planned, RequiredChecks, Choice, Coherent, BuildPackage, AllSurvive, FindingFits;
  }

  lemma DependableRecorders(host: Host, keyId: string)
    requires Dependable(host, keyId)
    ensures RecordersNeverRaise(StandalonePorts(host))
  {
    hide ConfidenceResult, Reviewed, Propose, Interpreted, FreshnessFinding;
  }

  lemma AcknowledgedResult(m: Run, signed: Signed)
    ensures var r := DeliveryResult(m, signed, Ok(Acknowledged(signed))); r.status.Proposed? && r.signed == Some(signed)
  {
    hide Correlation, UnknownReason, MismatchReason;
  }

  /** The sink acknowledges the package under its own digest, so the cycle is proposed. */
  lemma Acknowledgement(cache: Cache, m: Run, signed: Signed)
    requires m.phase == Delivery(signed)
    ensures var p := DeliveryStep(cache, m, signed, SinkSays(Ok(Acknowledged(signed))));
      && p.run.phase.Recording? && p.run.phase.receipts == [] && p.run.phase.next.Settle?
      && p.run.phase.next.result.status.Proposed? && p.run.phase.next.result.signed == Some(signed)
  {
    hide DeliveryResult, DeliveryEvent, Put;
    AcknowledgedResult(m, signed);
  }

  lemma DeliverOut(setup: Setup, host: Host, cache: Cache, m: Run, calls: nat)
    returns (cache': Cache, m': Run, calls': nat)
    requires m.phase.Signing? && Dependable(host, setup.keyId) && Sized(setup.keyId, 512)
    ensures Leads(setup, StandalonePorts(host), cache, m, calls, cache', m', calls')
    ensures m'.phase.Finished? && m'.phase.result.status.Proposed? && m'.phase.result.signed.Some?
    ensures m'.phase.result.signed.value.package == m.phase.package
  {
    hide Drive, Holds, Lawful, Correlation, SignatureText, DeliveryStep, Put, Sized, RecordersNeverRaise;
    hide ConfidenceResult, Reviewed, Propose, Interpreted, FreshnessFinding;
    DependableRecorders(host, setup.keyId);
    var ports, package := StandalonePorts(host), m.phase.package;
    SignerLeads(setup, ports, cache, m, calls, package);
    var next := SigningStep(setup, m, package, SignerSays(host.sign(calls, package, setup.keyId)));
    var signed := next.phase.signed;
    SinkLeads(setup, ports, cache, next, calls + 1, signed);
    Acknowledgement(cache, next, signed);
    var p := DeliveryStep(cache, next, signed, SinkSays(Ok(Acknowledged(signed))));
    m', calls' := WriteOut(setup, ports, p.cache, p.run, calls + 2);
    var result := m'.phase.result;
    SettleLeads(setup, ports, p.cache, m', calls', result);
    var q := SettleStep(p.cache, m', result);
    cache', m' := q.cache, q.run;
  }

  // ----- The decision -----

  datatype Ruling = Refused | Ambiguous | Nothing | ReviewRequested

  /** The way the kernel goes, gate by gate. */
  function Course(minimum: real, now: Instant, evidence: seq<Envelope>, scope: Scope): Ruling {
    if !AllAdmissible(evidence, scope, now) then Refused
    else if !Distinct(Map(DigestOf, evidence)) then Ambiguous
    else if !Confident(minimum, evidence) then Refused
    else if NothingConcerning(evidence) then Nothing
    else ReviewRequested
  }

  predicate FailedOrWarned(e: Envelope) {
    e.measurement.status == MeasurementStatus.Failed || e.measurement.status == Warning
  }

  /** The decision table of the standalone kernel: foreign or stale evidence is refused; then two
      items with one digest are ambiguous; then low confidence is refused; and then a review is
      requested if anything failed or warned. */
  ghost function Expected(minimum: real, now: Instant, evidence: seq<Envelope>, scope: Scope): Ruling {
    if exists e :: e in evidence && (e.scope != scope || now < e.metadata.observedAt || e.metadata.expiresAt <= now) then Refused
    else if exists i, j :: 0 <= i < j < |evidence| && evidence[i].assurance.digest == evidence[j].assurance.digest then Ambiguous
    else if exists e :: e in evidence && e.assurance.confidence < minimum then Refused
    else if exists e :: e in evidence && FailedOrWarned(e) then ReviewRequested
    else Nothing
  }

  lemma CourseIsExpected(minimum: real, now: Instant, evidence: seq<Envelope>, scope: Scope)
    ensures Course(minimum, now, evidence, scope) == Expected(minimum, now, evidence, scope)
  {
    DigestsExactly(evidence);
    hide Distinct;
    assert AllAdmissible(evidence, scope, now)
      <==> !(exists e :: e in evidence && (e.scope != scope || now < e.metadata.observedAt || e.metadata.expiresAt <= now));
    assert NothingConcerning(evidence) <==> !(exists e :: e in evidence && FailedOrWarned(e));
  }

  predicate AscendingTexts(ids: seq<Json>) {
    forall i, j :: 0 <= i < j < |ids| ==> ids[i].JStr? && ids[j].JStr? && Precedes(ids[i].s, ids[j].s)
  }

  /** The alternative: to hold the subjects of the items that failed or warned, each listed once
      and in ascending order. */
  ghost predicate HoldsBack(c: Candidate, evidence: seq<Envelope>) {
    && c.action == HoldAction() && c.consequence.High?
    && c.parameters.Keys == {"subject_ids"} && c.parameters["subject_ids"].JArr?
    && var ids := c.parameters["subject_ids"].items;
       && AscendingTexts(ids)
       && (forall j :: j in ids ==> exists e :: e in evidence && FailedOrWarned(e) && j == JStr(e.subject.id))
       && (forall e :: e in evidence && FailedOrWarned(e) ==> JStr(e.subject.id) in ids)
  }

  /** The selected action is the request for review, and the other candidate a hold. There is a
      constraint for every item that failed or warned, which the request covers, and no other
      constraint; and it cites these items only. */
  ghost predicate ReviewsConcerns(p: Package, evidence: seq<Envelope>) {
    && p.selectedId in Map(CandidateId, p.candidates)
    && |p.candidates| == 2 && HoldsBack(p.candidates[1], evidence)
    && var selected := Selected(p.candidates, p.selectedId);
       && selected == p.candidates[0] && selected.action == RequestReview() && selected.consequence.Medium?
       && selected.parameters == map["queue" := JStr("model-risk")]
       && (forall c :: c in p.constraints ==> exists e :: e in evidence && FailedOrWarned(e) && Reviews(c, e))
       && (forall e :: e in evidence && FailedOrWarned(e) ==>
             exists c :: c in p.constraints && Reviews(c, e) && c.id in selected.constraintRefs)
       && forall x :: x in selected.evidenceRefs <==> exists e :: e in evidence && FailedOrWarned(e) && e.assurance.digest == x
  }

  ghost predicate Decided(v: Ruling, evidence: seq<Envelope>, m: Run) {
    match v
    case Refused => EndsAs(m, Declined)
    case Ambiguous => m.phase.Raised?
    case Nothing => EndsAs(m, NoCandidate)
    case ReviewRequested =>
      && m.phase.Finished? && m.phase.result.status.Proposed? && m.phase.result.signed.Some?
      && ReviewsConcerns(m.phase.result.signed.value.package, evidence)
  }

  lemma CitedItem(naming: Naming, d: Docket, item: Envelope)
    requires ReviewDocket(naming, d) && item in Items(d)
    ensures exists e :: e in d.evidence && FailedOrWarned(e) && e.assurance.digest == item.assurance.digest
  {
    hide ReviewConstraints, ReviewRequired, IdentityText, Distinct, StatusText, Reviewed, Reviews, GovernedItems;
    ReviewConstraintMembers(naming, d.scope, d.evidence);
    GovernedMembers({ReviewRequired()}, d.constraints, d.evidence, item);
    var c :| c in d.constraints && c.name in {ReviewRequired()} && item.assurance.digest in c.evidenceRefs;
    var e :| e in d.evidence && Concerning(e) && c == ReviewConstraint(naming, d.scope, e);
    assert e.assurance.digest == item.assurance.digest && FailedOrWarned(e);
  }

  lemma ConcernCited(naming: Naming, d: Docket, e: Envelope)
    requires ReviewDocket(naming, d) && e in d.evidence && FailedOrWarned(e)
    ensures e in Items(d)
  {
    hide ReviewConstraints, ReviewRequired, IdentityText, Distinct, StatusText, Reviewed, Reviews, GovernedItems;
    ReviewConstraintMembers(naming, d.scope, d.evidence);
    var c := ReviewConstraint(naming, d.scope, e);
    assert c in d.constraints && e.assurance.digest in c.evidenceRefs && c.name in {ReviewRequired()};
    GovernedMembers({ReviewRequired()}, d.constraints, d.evidence, e);
  }

  lemma CitedByReview(naming: Naming, d: Docket, x: string)
    requires ReviewDocket(naming, d)
    ensures x in Dedup(Map(DigestOf, Items(d))) <==> exists e :: e in d.evidence && FailedOrWarned(e) && e.assurance.digest == x
  {
    hide ReviewDocket, Items, FailedOrWarned;
    var items := Items(d);
    MemberExact(DigestOf, items, x);
    if item :| item in items && DigestOf(item) == x {
      CitedItem(naming, d, item);
    }
    if e :| e in d.evidence && FailedOrWarned(e) && e.assurance.digest == x {
      ConcernCited(naming, d, e);
      assert DigestOf(e) == x;
    }
  }

  lemma ItemFailedOrWarned(naming: Naming, d: Docket, item: Envelope)
    requires ReviewDocket(naming, d) && Distinct(Map(DigestOf, d.evidence))
    ensures item in Items(d) <==> item in d.evidence && FailedOrWarned(item)
  {
    hide ReviewDocket, FailedOrWarned, Distinct, Map, GovernedBy;
    if item in Items(d) {
      GovernedMembers({ReviewRequired()}, d.constraints, d.evidence, item);
      CitedItem(naming, d, item);
      var e :| e in d.evidence && FailedOrWarned(e) && e.assurance.digest == item.assurance.digest;
      DistinctExact(DigestOf, d.evidence);
      var i, j :| 0 <= i < |d.evidence| && 0 <= j < |d.evidence| && d.evidence[i] == e && d.evidence[j] == item;
      assert DigestOf(d.evidence[i]) == DigestOf(d.evidence[j]);
    }
    if item in d.evidence && FailedOrWarned(item) {
      ConcernCited(naming, d, item);
    }
  }

  lemma AscendingIds(items: seq<Envelope>)
    ensures forall i, j :: 0 <= i < j < |SubjectIds(items)| ==> Precedes(SubjectIds(items)[i], SubjectIds(items)[j])
    ensures forall x :: x in SubjectIds(items) <==> exists e :: e in items && x == e.subject.id
  {
    hide Sort, Precedes, StringLe, Map;
    var all := Map(SubjectId, items);
    var ids := Dedup(all);
    StringOrder();
    SortSorts(ids, StringLe);
    SortMembers(ids, StringLe);
    DistinctPermuted(ids, Sort(ids, StringLe));
    var sorted := SubjectIds(items);
    forall i, j | 0 <= i < j < |sorted| ensures Precedes(sorted[i], sorted[j]) {
      StringLePrecedes(sorted[i], sorted[j]);
    }
    forall x ensures x in sorted <==> exists e :: e in items && x == e.subject.id {
      MemberExact(SubjectId, items, x);
    }
  }

  lemma HoldNames(naming: Naming, d: Docket)
    requires ReviewDocket(naming, d) && Distinct(Map(DigestOf, d.evidence))
    ensures HoldsBack(Hold(naming, d.scope, Items(d), d.constraints), d.evidence)
  {
    hide ReviewDocket, FailedOrWarned, Distinct, Items, Precedes, Sort, Dedup, CandidateName, HoldAction, SubjectIds;
    var items, ids := Items(d), SubjectIds(Items(d));
    AscendingIds(items);
    var texts := Map(TextJson, ids);
    assert Hold(naming, d.scope, items, d.constraints).parameters == map["subject_ids" := JArr(texts)] by { SubjectsOfHold(naming, d); }
    forall t | t in texts ensures exists e :: e in d.evidence && FailedOrWarned(e) && t == JStr(e.subject.id) {
      MemberExact(TextJson, ids, t);
      var x :| x in ids && TextJson(x) == t;
      var e :| e in items && x == e.subject.id;
      ItemFailedOrWarned(naming, d, e);
    }
    forall e | e in d.evidence && FailedOrWarned(e) ensures JStr(e.subject.id) in texts {
      ItemFailedOrWarned(naming, d, e);
      assert e.subject.id in ids && TextJson(e.subject.id) == JStr(e.subject.id);
      MemberExact(TextJson, ids, JStr(e.subject.id));
    }
  }

  lemma SubjectsOfHold(naming: Naming, d: Docket)
    ensures Hold(naming, d.scope, Items(d), d.constraints).parameters == map["subject_ids" := JArr(Map(TextJson, SubjectIds(Items(d))))]
  {
    hide Items, Sort, Dedup, CandidateName, Map;
  }

  lemma PackageReviews(setup: Setup, naming: Naming, d: Docket)
    requires ReviewPlanned(setup, naming, d) && ReviewDocket(naming, d) && Distinct(Map(DigestOf, d.evidence))
    ensures ReviewsConcerns(BuildPackage(setup, d), d.evidence)
  {
    hide ReviewConstraints, RequiredChecks, Admitting, Selected, ReviewRequired, RequestReview, Items, Reviews;
    hide IdentityText, Distinct, StatusText, Dedup, ReviewConstraint, HoldsBack;
    HoldNames(naming, d);
    ReviewConstraintMembers(naming, d.scope, d.evidence);
    forall e | e in d.evidence && FailedOrWarned(e)
      ensures exists c :: c in d.constraints && Reviews(c, e) && c.id in Choice(d).constraintRefs
    {
      var c := ReviewConstraint(naming, d.scope, e);
      ReviewsItsItem(naming, d.scope, e);
      assert c in d.constraints;
      var i :| 0 <= i < |d.constraints| && d.constraints[i] == c;
      assert Map(ConstraintId, d.constraints)[i] == c.id;
    }
    forall x
      ensures x in Choice(d).evidenceRefs <==> exists e :: e in d.evidence && FailedOrWarned(e) && e.assurance.digest == x
    {
      CitedByReview(naming, d, x);
    }
  }

  /** What the theorem asks of the evidence: one correlation id, distinct identities, and no
      collisions among the digests and names in play. */
  ghost predicate WellPosed(setup: Setup, naming: Naming, evidence: seq<Envelope>, scope: Scope) {
    && evidence != [] && SoundEvidence(evidence) && OneCorrelation(evidence) && Distinct(Map(IdentityOf, evidence))
    && CollisionFree(setup.hash, evidence) && NamesApart(naming, scope, evidence) && ActionsApart(naming, scope, evidence)
  }

  lemma ClassifiedKept(setup: Setup, m: Run)
    requires m.phase.Interpret? && Holds(setup, m)
    ensures ConstraintsKept(m.docket)
  {
    hide ConstraintsKept, PoliciesPassed, Distinct, Sorted;
  }

  lemma AdmissibleIsFresh(evidence: seq<Envelope>, scope: Scope, now: Instant)
    requires AllAdmissible(evidence, scope, now)
    ensures AllFresh(evidence, now)
  {
  }

  /** From the first gate to the end. */
  lemma Decides(setup: Setup, host: Host, cache: Cache, m: Run, calls: nat, now: Instant) returns (cache': Cache, m': Run, calls': nat)
    requires StandaloneSetup(setup) && ValidSetup(setup) && Dependable(host, setup.keyId)
    requires m.phase == Evidence(0) && m.docket.policies == [] && m.docket.constraints == [] && m.docket.findings == []
    requires m.docket.now == now && WellPosed(setup, host.naming, m.docket.evidence, m.docket.scope) && Holds(setup, m)
    ensures Leads(setup, StandalonePorts(host), cache, m, calls, cache', m', calls')
    ensures Decided(Course(host.minimum, now, m.docket.evidence, m.docket.scope), m.docket.evidence, m')
  {
    hide Drive, Holds, Lawful, Dependable, StandaloneDefinitions, ReadsSchemas, FreshnessId, ValidSetup;
    hide SoundEvidence, OneCorrelation, CollisionFree, NamesApart, ActionsApart, Distinct, AllAdmissible;
    hide Confident, NothingConcerning, ReviewDocket, ReviewPlanned, ReviewsConcerns, BuildPackage;
    hide RiskObjective, StandalonePorts, Map, AllFresh;
    var d, naming := m.docket, host.naming;
    DependableRecorders(host, setup.keyId);
    StandaloneLawful(host);
    cache', m', calls' := EvidenceOut(setup, StandalonePorts(host), cache, m, calls, 0);
    if m'.phase.Policy? {
      cache', m', calls' := PolicyOut(setup, host, cache', m', calls');
      if m'.phase.Classify? {
        cache', m', calls' := ClassifyOut(setup, host, cache', m', calls');
        if m'.phase.Interpret? {
          ClassifiedKept(setup, m');
          var reviewed := m'.docket;
          m', calls' := InterpretOut(setup, host, cache', m', calls');
          SameReview(naming, reviewed, m'.docket);
          m', calls' := PlanOut(setup, host, cache', m', calls');
          AdmissibleIsFresh(d.evidence, d.scope, now);
          m', calls' := ChallengeOut(setup, host, cache', m', calls');
          SameReview(naming, reviewed, m'.docket);
          PackageReviews(setup, naming, m'.docket);
          cache', m', calls' := DeliverOut(setup, host, cache', m', calls');
        }
      }
    }
  }

  lemma PosedInOrder(setup: Setup, naming: Naming, a: seq<Envelope>, b: seq<Envelope>, scope: Scope)
    requires WellPosed(setup, naming, a, scope) && multiset(a) == multiset(b)
    ensures WellPosed(setup, naming, b, scope)
  {
    hide IdentityText, CandidateName, ValidEnvelope;
    MultisetMembers(a, b);
    MapPermuted(IdentityOf, a, b);
    DistinctPermuted(Map(IdentityOf, a), Map(IdentityOf, b));
    assert (iset e | e in a :: e.assurance.confidence) == (iset e | e in b :: e.assurance.confidence);
  }

  lemma CourseInOrder(minimum: real, now: Instant, a: seq<Envelope>, b: seq<Envelope>, scope: Scope)
    requires multiset(a) == multiset(b)
    ensures Course(minimum, now, a, scope) == Course(minimum, now, b, scope)
  {
    hide Admissible, Distinct, Concerning;
    MultisetMembers(a, b);
    MapPermuted(DigestOf, a, b);
    if Distinct(Map(DigestOf, a)) {
      DistinctPermuted(Map(DigestOf, a), Map(DigestOf, b));
    } else if Distinct(Map(DigestOf, b)) {
      DistinctPermuted(Map(DigestOf, b), Map(DigestOf, a));
    }
  }

  lemma HoldsBackInOrder(c: Candidate, a: seq<Envelope>, b: seq<Envelope>)
    requires (forall e :: e in a <==> e in b) && HoldsBack(c, a)
    ensures HoldsBack(c, b)
  {
    hide HoldAction, AscendingTexts, FailedOrWarned;
    var ids := c.parameters["subject_ids"].items;
    forall j | j in ids ensures exists e :: e in b && FailedOrWarned(e) && j == JStr(e.subject.id) {
      var e :| e in a && FailedOrWarned(e) && j == JStr(e.subject.id);
      assert e in b;
    }
  }

  lemma ConcernsInOrder(p: Package, a: seq<Envelope>, b: seq<Envelope>)
    requires multiset(a) == multiset(b) && ReviewsConcerns(p, a)
    ensures ReviewsConcerns(p, b)
  {
    hide Selected, RequestReview, HoldsBack, Reviews, FailedOrWarned;
    MultisetMembers(a, b);
    HoldsBackInOrder(p.candidates[1], a, b);
  }

  lemma DecidedInOrder(v: Ruling, a: seq<Envelope>, b: seq<Envelope>, m: Run)
    requires multiset(a) == multiset(b) && Decided(v, a, m)
    ensures Decided(v, b, m)
  {
    hide ReviewsConcerns;
    if v.ReviewRequested? {
      ConcernsInOrder(m.phase.result.signed.value.package, a, b);
    }
  }

  lemma ArrangedPermutes(hash: Hashing, evidence: seq<Envelope>)
    ensures multiset(Arrange(hash, evidence)) == multiset(evidence)
  {
  }

  /** The standalone kernel decides by its table: evidence that is foreign, stale or not
      confident enough is rejected; two items with one artifact digest make the call raise, and
      nothing else does; without a failed or warning measurement there is no candidate; otherwise
      a request for review is proposed that covers a hard constraint for every failed item. */
  lemma StandaloneDecides(setup: Setup, host: Host, cache: Cache, calls: nat, now: Instant, evidence: seq<Envelope>, scope: Scope)
    requires StandaloneSetup(setup) && Dependable(host, setup.keyId) && WellPosed(setup, host.naming, evidence, scope)
    requires CycleKey(setup.hash, evidence, scope) !in cache && host.clock(calls) == Ok(Aware(now))
    ensures Decided(Expected(host.minimum, now, evidence, scope), evidence,
                    Call(setup, StandalonePorts(host), cache, calls, evidence, scope).run)
  {
    hide Expected, Drive, Holds, Lawful, CycleKey, ReadsSchemas, WellPosed, Course, Decided, Arrange;
    hide StandaloneDefinitions, WellFiled, FreshnessId;
    var ports, m := StandalonePorts(host), Begin(setup, evidence, scope);
    var arranged := Arrange(setup.hash, evidence);
    StandaloneWellFiled();
    ArrangedPermutes(setup.hash, evidence);
    PosedInOrder(setup, host.naming, evidence, arranged, scope);
    CourseIsExpected(host.minimum, now, evidence, scope);
    CourseInOrder(host.minimum, now, evidence, arranged, scope);
    ArrangedKey(setup.hash, evidence, scope);
    BeginHolds(setup, evidence, scope);
    StandaloneLawful(host);
    var start := Opens(setup, host, cache, m, calls, now);
    var cache', m', calls' := Decides(setup, host, cache, start, calls + 1, now);
    DecidedEnds(Course(host.minimum, now, arranged, scope), arranged, m');
    NothingFollows(setup, ports, cache', m', calls');
    DecidedInOrder(Course(host.minimum, now, arranged, scope), arranged, evidence, m');
  }

  lemma DecidedEnds(v: Ruling, evidence: seq<Envelope>, m: Run)
    requires Decided(v, evidence, m)
    ensures Terminal(m.phase)
  {
    hide ReviewsConcerns;
  }

  /** A well-posed cycle that is not cached reaches the first gate. */
  lemma Opens(setup: Setup, host: Host, cache: Cache, m: Run, calls: nat, now: Instant) returns (m': Run)
    requires m.phase.Lookup? && m.docket.key !in cache && host.clock(calls) == Ok(Aware(now))
    requires WellPosed(setup, host.naming, m.docket.evidence, m.docket.scope)
    ensures Leads(setup, StandalonePorts(host), cache, m, calls, cache, m', calls + 1)
    ensures m'.phase == Evidence(0) && m'.docket == m.docket.(now := now)
  {
    hide Drive, Holds, Lawful, CollisionFree, NamesApart, ActionsApart, SoundEvidence, OneCorrelation, Distinct;
    hide ConfidenceResult, Reviewed, Propose, Interpreted, FreshnessFinding;
    LookupLeads(setup, StandalonePorts(host), cache, m, calls);
    ClockLeads(setup, StandalonePorts(host), cache, LookupStep(cache, m), calls);
    m' := ClockStep(LookupStep(cache, m), Ok(Aware(now)));
  }

  // ----- The raising case happens -----

  /** A passing report about one artifact. */
  function Report(id: string, scope: Scope, now: Instant): Envelope {
    Envelope(Metadata(id, "correlation", None, now, now + 1, "producer", "schema"), scope, Subject("model", "m", None),
             Measurement("score", JBool(true), None, JNull, Passed, None),
             Assurance(1.0, "sha256:" + seq(64, _ => 'a'), None), map[])
  }

  function NamedByText(): Naming {
    Naming((text: string) => text, (r: real) => "1.0")
  }

  lemma ReportIsValid(id: string, scope: Scope, now: Instant)
    requires Sized(id, 512)
    ensures ValidEnvelope(Report(id, scope, now))
  {
    var digest := Report(id, scope, now).assurance.digest;
    assert digest[..7] == "sha256:";
    assert forall i :: 7 <= i < |digest| ==> digest[i] == 'a';
  }

  /** Two reports about one artifact, different and digested differently, pose a proper cycle
      that the kernel does not answer. */
  lemma TwoReportsAreAmbiguous(setup: Setup, minimum: real, scope: Scope, now: Instant)
    requires setup.hash.envelope(Report("1", scope, now)) != setup.hash.envelope(Report("2", scope, now))
    ensures var evidence := [Report("1", scope, now), Report("2", scope, now)];
      && WellPosed(setup, NamedByText(), evidence, scope)
      && Expected(minimum, now, evidence, scope) == Ambiguous
  {
    hide ValidEnvelope, CandidateName, IdentityText, IsFloatText;
    var a, b := Report("1", scope, now), Report("2", scope, now);
    var evidence := [a, b];
    CourseIsExpected(minimum, now, evidence, scope);
    hide Expected;
    ReportIsValid("1", scope, now);
    ReportIsValid("2", scope, now);
    assert IdentityOf(a) != IdentityOf(b);
    var refs := Map(DigestOf, evidence);
    assert refs[0] == refs[1];
    FloatText();
    forall items: seq<Envelope>
      ensures CandidateName(NamedByText(), scope, items, RequestReview()) != CandidateName(NamedByText(), scope, items, HoldAction())
    {
      NamesApartByText(scope, items);
    }
  }

  lemma FloatText()
    ensures IsFloatText("1.0")
  {
    assert LeadingDigits("1.0") == 1 && "1.0"[1..] == ".0";
    assert ".0"[1..] == "0" && LeadingDigits("0") == 1 && "0"[1..] == "";
    assert '.' in "1.0";
  }

  lemma NamesApartByText(scope: Scope, items: seq<Envelope>)
    ensures CandidateName(NamedByText(), scope, items, RequestReview()) != CandidateName(NamedByText(), scope, items, HoldAction())
  {
    hide PlanIdentity, Print, RequestReview, HoldAction;
    NamesDiffer();
    var prefix := Print(NamedByText().repr, PlanIdentity(scope, items)) + "|";
    assert (prefix + RequestReview())[|prefix|..] == RequestReview();
    assert (prefix + HoldAction())[|prefix|..] == HoldAction();
  }
}
