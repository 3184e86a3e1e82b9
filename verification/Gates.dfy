/** What the kernel's gates establish, program point by program point, and that together
    they imply every condition of the package validator. */
module Gates {
  import opened Basics
  import opened Order
  import opened Contracts
  import opened Signature
  import opened Registry
  import opened Cycle
  import opened KernelMachine

  // ----- What each gate leaves behind -----

  ghost predicate Blank(d: Docket) {
    d.policies == [] && d.constraints == [] && d.findings == []
  }

  ghost predicate Opened(d: Docket) {
    d.evidence != [] && OneCorrelation(d.evidence) && Distinct(Map(IdentityOf, d.evidence))
  }

  /** The first n items are in scope and fresh. */
  ghost predicate Admitted(d: Docket, n: nat) {
    forall k :: 0 <= k < n && k < |d.evidence| ==> d.evidence[k].scope == d.scope && FreshAt(d.evidence[k], d.now)
  }

  ghost predicate AllAdmitted(d: Docket) {
    Opened(d) && Admitted(d, |d.evidence|)
  }

  ghost predicate PoliciesKept(d: Docket) {
    forall r :: r in d.policies ==> ValidPolicyResult(r) && Inside(r.evidenceRefs, Known(d))
  }

  ghost predicate PoliciesPassed(setup: Setup, d: Docket) {
    && AllAdmitted(d) && PoliciesKept(d) && |d.policies| == setup.policies
    && AllAllowed(d.policies) && Distinct(Map(CheckId, d.policies))
  }

  ghost predicate ConstraintsKept(d: Docket) {
    forall c :: c in d.constraints ==> ValidConstraint(c) && Inside(c.evidenceRefs, Known(d))
  }

  ghost predicate ConstraintsReady(setup: Setup, d: Docket) {
    && PoliciesPassed(setup, d) && ConstraintsKept(d)
    && d.constraints != [] && Distinct(Map(ConstraintId, d.constraints))
    && Sorted(d.constraints, ByKey(ConstraintKey, TupleLe))
  }

  ghost predicate ObjectiveReady(setup: Setup, d: Docket) {
    && ConstraintsReady(setup, d) && d.objective.Some?
    && ValidObjective(d.objective.value) && ObjectiveFits(d, d.objective.value)
  }

  ghost predicate PlanReady(setup: Setup, d: Docket) {
    && ObjectiveReady(setup, d) && d.plan.Some?
    && ValidPlan(d.plan.value) && PlanFits(setup, d, d.objective.value, d.plan.value)
  }

  ghost predicate FindingsKept(setup: Setup, d: Docket, n: nat) {
    && Planned(setup, d) && |d.findings| == n <= |RequiredChecks(setup, d)|
    && forall k :: 0 <= k < n ==> FindingFits(d, d.findings[k], Choice(d).id, RequiredChecks(setup, d)[k])
  }

  ghost predicate Challenged(setup: Setup, d: Docket) {
    PlanReady(setup, d) && FindingsKept(setup, d, |RequiredChecks(setup, d)|)
  }

  ghost predicate PackageReady(setup: Setup, d: Docket) {
    Challenged(setup, d) && AllSurvive(d.findings)
  }

  /** The cause recorded for a cycle without a proposal is the true one, and every gate
      before it was passed. */
  ghost predicate CauseHolds(setup: Setup, d: Docket, cause: Cause) {
    match cause
    case Foreign(i) => Opened(d) && i < |d.evidence| && Admitted(d, i) && d.evidence[i].scope != d.scope
    case Stale(i) =>
      && Opened(d) && i < |d.evidence| && Admitted(d, i)
      && d.evidence[i].scope == d.scope && !FreshAt(d.evidence[i], d.now)
    case Denied => AllAdmitted(d) && PoliciesKept(d) && |d.policies| == setup.policies && !AllAllowed(d.policies)
    case NoConstraints => PoliciesPassed(setup, d) && d.constraints == []
    case NoPlan => ObjectiveReady(setup, d)
    case Falsified => Challenged(setup, d) && !AllSurvive(d.findings)
  }

  /** The signed package is the one that the docket calls for, coherent, sealed with its own
      digest, the kernel's key and a well-formed signature. */
  ghost predicate Proposable(setup: Setup, d: Docket, signed: Signed) {
    && PackageReady(setup, d) && signed.package == BuildPackage(setup, d) && Coherent(signed.package)
    && signed.digest == setup.hash.package(signed.package) && signed.keyId == setup.keyId
    && IsSignatureText(signed.signature)
  }

  ghost predicate HoldsAt(setup: Setup, d: Docket, phase: Phase) {
    match phase
    case Lookup => Blank(d)
    case ReadClock => Blank(d) && d.evidence != []
    case Evidence(i) => Blank(d) && Opened(d) && Admitted(d, i) && i <= |d.evidence|
    case Policy(i) =>
      && AllAdmitted(d) && PoliciesKept(d) && |d.policies| == i <= setup.policies
      && d.constraints == [] && d.findings == []
    case Classify(i) => PoliciesPassed(setup, d) && ConstraintsKept(d) && d.findings == []
    case Classified(i) => ConstraintsReady(setup, d) && i <= |d.constraints| && d.findings == []
    case Interpret => ConstraintsReady(setup, d) && d.findings == []
    case Planning => ObjectiveReady(setup, d) && d.findings == []
    case Challenge(i) => PlanReady(setup, d) && FindingsKept(setup, d, i)
    case Signing(package) => PackageReady(setup, d) && package == BuildPackage(setup, d) && Coherent(package)
    case Delivery(signed) => Proposable(setup, d, signed)
    case Settle(r) => r.signed.Some? && Proposable(setup, d, r.signed.value) && r.correlationId == Correlation(d)
    case Reject(cause) => CauseHolds(setup, d, cause)
    case CacheRejection(cause) => CauseHolds(setup, d, cause)
    case Recording(_, _, _) => false   // proof writes do not nest
    case Finished(_, Replayed) => true
    case Finished(r, Closed(cause)) =>
      CauseHolds(setup, d, cause) && r.reasons == CauseReasons(d, cause) && r.correlationId == Correlation(d)
    case Finished(r, _) => r.signed.Some? && Proposable(setup, d, r.signed.value) && r.correlationId == Correlation(d)
    case Raised => true
  }

  ghost predicate Holds(setup: Setup, m: Run) {
    && HoldsAt(setup, m.docket, Target(m.phase))
    && (m.phase.Recording? ==> Resumes(m.phase.next) && |m.phase.receipts| <= setup.recorders)
  }

  // ----- The gates imply the package validator -----

  lemma PackageEvidence(setup: Setup, d: Docket)
    requires PackageReady(setup, d) && CollisionFree(setup.hash, d.evidence)
    ensures CoherentEvidence(BuildPackage(setup, d))
  {
    hide Map, AllSurvive, Correlation, Dedup, Planned, ValidPolicyResult, Choice, PlanFits, ValidObjective;
    var p := BuildPackage(setup, d);
    var digests := Map(DigestOf, d.evidence);
    assert Map(ReferenceIdentity, p.evidence) == Map(IdentityOf, d.evidence);
    assert Map(ReferenceArtifact, p.evidence) == digests;
    assert digests[0] in digests;
    forall i, j | 0 <= i < j < |d.evidence| ensures setup.hash.envelope(d.evidence[i]) != setup.hash.envelope(d.evidence[j]) {
      assert Map(IdentityOf, d.evidence)[i] != Map(IdentityOf, d.evidence)[j];
    }
  }

  lemma PackageSelection(setup: Setup, d: Docket)
    requires PackageReady(setup, d)
    ensures CoherentSelection(BuildPackage(setup, d))
  {
  }

  lemma PackageFindings(setup: Setup, d: Docket)
    requires ValidSetup(setup) && PackageReady(setup, d)
    ensures CoherentFindings(BuildPackage(setup, d))
  {
    var p := BuildPackage(setup, d);
    var checks := RequiredChecks(setup, d);
    assert ValidDefinition(setup.definitions[Choice(d).action]);
    assert |p.findings| == |checks| && p.findings != [];
    assert p.findings[0] in p.findings && p.findings[0].candidateId == p.selectedId;
    var keys := Map(FindingKey, p.findings);
    forall i, j | 0 <= i < j < |keys| ensures keys[i] != keys[j] {
      assert keys[i].1 == checks[i] && keys[j].1 == checks[j];
    }
    forall f | f in p.findings ensures f.candidateId == p.selectedId {
      var k :| 0 <= k < |p.findings| && p.findings[k] == f;
      assert FindingFits(d, d.findings[k], Choice(d).id, checks[k]);
    }
  }

  lemma PackageReferences(setup: Setup, d: Docket)
    requires PackageReady(setup, d)
    ensures CoherentReferences(BuildPackage(setup, d))
  {
    var p := BuildPackage(setup, d);
    assert Elements(p.evidenceRefs) == Known(d);
    forall f | f in p.findings ensures Inside(f.evidenceRefs, Known(d)) {
      var k :| 0 <= k < |p.findings| && p.findings[k] == f;
      assert FindingFits(d, d.findings[k], Choice(d).id, RequiredChecks(setup, d)[k]);
    }
  }

  lemma {:induction false} ExpiryBounds(evidence: seq<Envelope>, bound: Instant)
    ensures EarliestExpiry(evidence, bound) <= bound
    ensures forall e :: e in evidence ==> EarliestExpiry(evidence, bound) <= e.metadata.expiresAt
    ensures EarliestExpiry(evidence, bound) == bound
         || exists e :: e in evidence && EarliestExpiry(evidence, bound) == e.metadata.expiresAt
  {
    if evidence != [] {
      ExpiryBounds(evidence[1..], bound);
      assert forall e :: e in evidence[1..] ==> e in evidence;
      assert evidence[0] in evidence;
    }
  }

  lemma DocketWindow(d: Docket, ttl: int)
    requires AllAdmitted(d) && ttl > 0
    ensures d.now < EarliestExpiry(d.evidence, d.now + ttl) <= d.now + ttl
    ensures forall e :: e in d.evidence ==>
              e.metadata.observedAt <= d.now && EarliestExpiry(d.evidence, d.now + ttl) <= e.metadata.expiresAt
  {
    ExpiryBounds(d.evidence, d.now + ttl);
    forall e | e in d.evidence ensures FreshAt(e, d.now) {
      var k :| 0 <= k < |d.evidence| && d.evidence[k] == e;
    }
  }

  lemma ChallengedIsAdmitted(setup: Setup, d: Docket)
    requires Challenged(setup, d)
    ensures AllAdmitted(d) && Planned(setup, d)
  {
    hide Planned, FindingFits, PlanFits, ValidPlan, ValidObjective, ObjectiveFits, Sorted, Opened, Admitted;
  }

  /** A package outlives none of its evidence, starts inside every window, and lives at most
      for the decision TTL: whenever it is fresh, so is every envelope. */
  lemma PackageWindow(setup: Setup, d: Docket)
    requires ValidSetup(setup) && Challenged(setup, d)
    ensures var p := BuildPackage(setup, d);
      && 0 < p.expiresAt - p.createdAt <= setup.ttl
      && forall e, t :: e in d.evidence && PackageFreshAt(p, t) ==> FreshAt(e, t)
  {
    hide Challenged, AllAdmitted, EarliestExpiry, Correlation, Known, References, Dedup, Map, Admitting, WellFiled;
    ChallengedIsAdmitted(setup, d);
    DocketWindow(d, setup.ttl);
  }

  /** Construction of the package never fails: the gates, which are spread over the whole run
      and come in another order, imply all that the validator asks. */
  lemma GatesImplyCoherence(setup: Setup, d: Docket)
    requires ValidSetup(setup) && PackageReady(setup, d) && CollisionFree(setup.hash, d.evidence)
    ensures Coherent(BuildPackage(setup, d))
  {
    PackageWindow(setup, d);
    PackageEvidence(setup, d);
    PackageSelection(setup, d);
    PackageFindings(setup, d);
    PackageReferences(setup, d);
  }

  // ----- Every step keeps what the gates established -----

  lemma BeginHolds(setup: Setup, evidence: seq<Envelope>, scope: Scope)
    ensures Holds(setup, Begin(setup, evidence, scope))
  {
    hide CauseHolds, PackageReady, Proposable, PlanReady, ObjectiveReady, ConstraintsReady, PoliciesPassed;
  }

  lemma LookupHolds(setup: Setup, cache: Cache, m: Run)
    requires m.phase.Lookup? && Holds(setup, m)
    ensures Holds(setup, LookupStep(cache, m))
  {
    hide CauseHolds, Proposable, PackageReady, PlanReady, ObjectiveReady, ConstraintsReady, PoliciesPassed;
    hide AllAdmitted, PoliciesKept, ConstraintsKept, Opened, Admitted, FindingsKept, Coherent, BuildPackage;
    hide Correlation, CauseReasons;
  }

  lemma ClockHolds(setup: Setup, m: Run, reading: Answer<Reading>)
    requires m.phase.ReadClock? && Holds(setup, m)
    ensures Holds(setup, ClockStep(m, reading))
  {
    hide CauseHolds, PackageReady, Proposable, PlanReady, ObjectiveReady, ConstraintsReady, PoliciesPassed;
    hide OneCorrelation, Distinct, Map, AllAdmitted, PoliciesKept, ConstraintsKept, FindingsKept, CauseReasons;
    hide Correlation, Coherent, BuildPackage;
  }

  lemma EvidenceHolds(setup: Setup, m: Run, i: nat)
    requires m.phase == Evidence(i) && Holds(setup, m)
    ensures Holds(setup, EvidenceStep(m, i))
  {
    hide FreshAt, ScopeReason, StaleReason, CauseReasons, Coherent, ConstraintsReady, ObjectiveReady;
  }

  lemma PolicyHolds(setup: Setup, m: Run, i: nat, a: Input)
    requires m.phase == Policy(i) && Holds(setup, m) && WellTyped(a)
    ensures Holds(setup, PolicyStep(setup, m, i, a))
  {
    hide AllAllowed, Distinct, Inside, ValidConstraint, ValidFinding, ValidObjective, ValidPlan;
    hide ValidPolicyResult, BuildPackage, CauseReasons, Coherent, ConstraintsReady, PlanReady;
  }

  lemma SortedConstraints(d: Docket)
    requires ConstraintsKept(d) && Distinct(Map(ConstraintId, d.constraints)) && d.constraints != []
    ensures var d' := d.(constraints := SortConstraints(d.constraints));
      && ConstraintsKept(d') && Distinct(Map(ConstraintId, d'.constraints)) && d'.constraints != []
      && Sorted(d'.constraints, ByKey(ConstraintKey, TupleLe))
  {
    var le := ByKey(ConstraintKey, TupleLe);
    var sorted := SortConstraints(d.constraints);
    TupleOrder();
    ByKeyPreorder(ConstraintKey, TupleLe);
    SortSorts(d.constraints, le);
    SortMembers(d.constraints, le);
    MapPermuted(ConstraintId, d.constraints, sorted);
    DistinctPermuted(Map(ConstraintId, d.constraints), Map(ConstraintId, sorted));
  }

  lemma ClassifyHolds(setup: Setup, m: Run, i: nat, a: Input)
    requires m.phase == Classify(i) && Holds(setup, m) && WellTyped(a)
    ensures Holds(setup, ClassifyStep(setup, m, i, a))
  {
    hide ConstraintKey, Distinct, Map, SortConstraints, Sorted, Inside, Resumes, ValidConstraint, ValidFinding;
    hide ValidPlan, ValidPolicyResult, Blank, CauseReasons, Coherent, Correlation, DigestOf, FindingsKept;
    hide ObjectiveReady, PackageReady, PlanReady, Proposable, OneCorrelation;
    if i >= setup.classifiers && Distinct(Map(ConstraintId, m.docket.constraints)) && m.docket.constraints != [] {
      SortedConstraints(m.docket);
    }
  }

  lemma InterpretHolds(setup: Setup, m: Run, a: Input)
    requires m.phase.Interpret? && Holds(setup, m) && WellTyped(a)
    ensures Holds(setup, InterpretStep(m, a))
  {
    hide ValidConstraint, ValidFinding, ValidObjective, ValidPlan, CauseHolds, CauseReasons, Coherent, Distinct;
    hide Elements, FindingsKept, Map, PackageReady, PlanReady, Proposable;
  }

  lemma PlanDoesNotUnready(setup: Setup, d: Docket, p: Plan)
    requires ObjectiveReady(setup, d) && ValidPlan(p) && PlanFits(setup, d, d.objective.value, p) && d.findings == []
    ensures PlanReady(setup, d.(plan := Some(p))) && FindingsKept(setup, d.(plan := Some(p)), 0)
  {
    hide Distinct, Inside, ValidPlan, ValidObjective, Admitting, OneCorrelation, Sorted, AllAllowed;
  }

  lemma PlanningHolds(setup: Setup, m: Run, a: Input)
    requires m.phase.Planning? && Holds(setup, m) && WellTyped(a)
    ensures Holds(setup, PlanningStep(setup, m, a))
  {
    hide FindingsKept, ObjectiveReady, PlanFits, ValidPlan, ConstraintsReady, Resumes, ValidConstraint;
    hide ValidFinding, ValidObjective, ValidPolicyResult, CauseReasons, Coherent, Proposable;
    if a.PlannerSays? && a.plan.Ok? && a.plan.value.Some? {
      var p := a.plan.value.value;
      if m.docket.objective.Some? && PlanFits(setup, m.docket, m.docket.objective.value, p) {
        PlanDoesNotUnready(setup, m.docket, p);
      }
    }
  }

  lemma FindingDoesNotUnplan(setup: Setup, d: Docket, f: Finding)
    requires PlanReady(setup, d)
    ensures PlanReady(setup, d.(findings := d.findings + [f]))
  {
    hide Distinct, Inside, ValidPlan, ValidObjective, Admitting, OneCorrelation, Sorted;
  }

  lemma FindingFollows(setup: Setup, d: Docket, f: Finding)
    requires FindingsKept(setup, d, |d.findings|) && |d.findings| < |RequiredChecks(setup, d)|
    requires FindingFits(d, f, Choice(d).id, RequiredChecks(setup, d)[|d.findings|])
    ensures FindingsKept(setup, d.(findings := d.findings + [f]), |d.findings| + 1)
  {
    hide Inside, Admitting;
  }

  lemma ChallengeHolds(setup: Setup, m: Run, i: nat, a: Input)
    requires m.phase == Challenge(i) && Holds(setup, m) && WellTyped(a)
    ensures Holds(setup, ChallengeStep(setup, m, i, a))
  {
    hide PlanReady, WellTyped, Admitting, AllSurvive, BuildPackage, CandidateId, Coherent, ObjectiveReady;
    hide CauseReasons, ConstraintsReady, PoliciesPassed;
    if a.CheckSays? && a.finding.Ok? && i < |RequiredChecks(setup, m.docket)|
       && FindingFits(m.docket, a.finding.value, Choice(m.docket).id, RequiredChecks(setup, m.docket)[i])
    {
      FindingDoesNotUnplan(setup, m.docket, a.finding.value);
      FindingFollows(setup, m.docket, a.finding.value);
    }
  }

  lemma SealedProposable(setup: Setup, d: Docket, package: Package, signature: seq<Byte>)
    requires PackageReady(setup, d) && package == BuildPackage(setup, d) && Coherent(package) && |signature| == 64
    ensures Proposable(setup, d, Sealed(setup, package, signature))
  {
    hide PackageReady, Coherent, BuildPackage, IsSignatureText, SignatureText;
    SignatureRoundTrip(signature);
  }

  lemma SigningHolds(setup: Setup, m: Run, package: Package, a: Input)
    requires m.phase == Signing(package) && Holds(setup, m)
    ensures Holds(setup, SigningStep(setup, m, package, a))
  {
    hide Proposable, Sealed, CauseHolds, PackageReady, PlanReady, ObjectiveReady, ConstraintsReady;
    hide PoliciesPassed, AllAdmitted, PoliciesKept, ConstraintsKept, Opened, Admitted, FindingsKept, Coherent;
    hide BuildPackage, Correlation, CauseReasons, Sized;
    if a.SignerSays? && a.signature.Ok? && |a.signature.value| == 64 {
      SealedProposable(setup, m.docket, package, a.signature.value);
    }
  }

  lemma ClassifiedHolds(setup: Setup, m: Run, i: nat)
    requires m.phase == Classified(i) && Holds(setup, m)
    ensures Holds(setup, ClassifiedStep(m, i))
  {
    hide CauseReasons;
  }

  lemma RejectHolds(setup: Setup, m: Run, cause: Cause)
    requires m.phase == Reject(cause) && Holds(setup, m)
    ensures Holds(setup, RejectStep(m, cause))
  {
    hide CauseReasons, CauseStatus, CauseHolds, ConstraintsReady, ObjectiveReady, PlanReady, PackageReady;
    hide Proposable, PoliciesPassed, FindingsKept, Correlation;
  }

  lemma QuietHolds(setup: Setup, cache: Cache, m: Run, a: Input)
    requires Holds(setup, m) && WellTyped(a)
    requires !m.phase.Recording? && !m.phase.Delivery? && !m.phase.Settle? && !m.phase.CacheRejection?
    ensures Holds(setup, QuietStep(setup, cache, m, a))
  {
    hide Holds, WellTyped, LookupStep, ClockStep, EvidenceStep, PolicyStep, ClassifyStep, ClassifiedStep;
    hide InterpretStep, PlanningStep, ChallengeStep, SigningStep, RejectStep;
    match m.phase
    case Lookup => LookupHolds(setup, cache, m);
    case ReadClock =>
      if a.ClockSays? {
        ClockHolds(setup, m, a.reading);
      }
    case Evidence(i) => EvidenceHolds(setup, m, i);
    case Policy(i) => PolicyHolds(setup, m, i, a);
    case Classify(i) => ClassifyHolds(setup, m, i, a);
    case Interpret => InterpretHolds(setup, m, a);
    case Planning => PlanningHolds(setup, m, a);
    case Challenge(i) => ChallengeHolds(setup, m, i, a);
    case Signing(package) => SigningHolds(setup, m, package, a);
    case Classified(i) => ClassifiedHolds(setup, m, i);
    case Reject(cause) => RejectHolds(setup, m, cause);
    case _ =>
  }

  lemma RecordingHolds(setup: Setup, cache: Cache, m: Run, a: Input)
    requires m.phase.Recording? && Holds(setup, m)
    ensures Holds(setup, RecordingStep(setup, cache, m, a).run)
  {
    hide Blank, CauseReasons, Coherent, ConstraintsReady, Correlation, FindingsKept, ObjectiveReady, PlanReady;
    hide PoliciesKept, Proposable, UnrecordedReason;
    assert HoldsAt(setup, m.docket, m.phase.next);
  }

  lemma DeliveryHolds(setup: Setup, cache: Cache, m: Run, signed: Signed, a: Input)
    requires m.phase == Delivery(signed) && Holds(setup, m)
    ensures Holds(setup, DeliveryStep(cache, m, signed, a).run)
  {
    hide CauseReasons, MismatchReason, Proposable;
  }

  lemma SettleHolds(setup: Setup, cache: Cache, m: Run, result: KernelResult)
    requires m.phase == Settle(result) && Holds(setup, m)
    ensures Holds(setup, SettleStep(cache, m, result).run)
  {
    hide CauseReasons, Proposable;
  }

  lemma CacheRejectionHolds(setup: Setup, cache: Cache, m: Run, cause: Cause)
    requires m.phase == CacheRejection(cause) && Holds(setup, m)
    ensures Holds(setup, CacheRejectionStep(cache, m, cause).run)
  {
    hide CauseHolds, CauseReasons, CauseStatus, Put, Proposable, Correlation;
  }

  /** Whatever well-typed values the ports answer, every point of every run has what the
      gates before it promise. */
  lemma StepHolds(setup: Setup, cache: Cache, m: Run, a: Input)
    requires Holds(setup, m) && WellTyped(a)
    ensures Holds(setup, Step(setup, cache, m, a).run)
  {
    hide Holds, WellTyped, RecordingStep, QuietStep, DeliveryStep, SettleStep, CacheRejectionStep;
    match m.phase
    case Recording(_, _, _) => RecordingHolds(setup, cache, m, a);
    case Delivery(signed) => DeliveryHolds(setup, cache, m, signed, a);
    case Settle(result) => SettleHolds(setup, cache, m, result);
    case CacheRejection(cause) => CacheRejectionHolds(setup, cache, m, cause);
    case _ => QuietHolds(setup, cache, m, a);
  }
}
