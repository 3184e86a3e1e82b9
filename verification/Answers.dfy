/** Where the contents of a package come from: every part of it is what a port answered in the
    same call, asked about the caller's evidence and about the parts before it. */
module Answers {
  import opened Basics
  import opened Order
  import opened Contracts
  import opened Signature
  import opened Registry
  import opened Cycle
  import opened KernelMachine
  import opened OneWayDoor
  import opened Gates
  import opened Trail
  import opened Runs
  import opened Guarantees

  // ----- What was answered, between two moments of the host -----

  ghost predicate ClockRead(ports: Ports, from: nat, upto: nat, now: Instant) {
    exists t: nat :: from <= t < upto && ports.clock(t) == Ok(Aware(now))
  }

  ghost predicate Evaluated(ports: Ports, from: nat, upto: nat, k: nat, evidence: seq<Envelope>, scope: Scope, r: PolicyResult) {
    exists t: nat :: from <= t < upto && ports.evaluate(t, k, evidence, scope) == Ok(r)
  }

  ghost predicate AllEvaluated(ports: Ports, from: nat, upto: nat, evidence: seq<Envelope>, scope: Scope, policies: seq<PolicyResult>) {
    forall k :: 0 <= k < |policies| ==> Evaluated(ports, from, upto, k, evidence, scope, policies[k])
  }

  ghost predicate ClassifiedAs(ports: Ports, from: nat, upto: nat, k: nat, evidence: seq<Envelope>, policies: seq<PolicyResult>,
                               scope: Scope, cs: seq<Constraint>)
  {
    exists t: nat :: from <= t < upto && ports.classify(t, k, evidence, policies, scope) == Ok(cs)
  }

  /** The answers of the first classifiers, in their order. */
  ghost predicate Answered(ports: Ports, from: nat, upto: nat, evidence: seq<Envelope>, policies: seq<PolicyResult>, scope: Scope,
                           answers: seq<seq<Constraint>>)
  {
    forall k :: 0 <= k < |answers| ==> ClassifiedAs(ports, from, upto, k, evidence, policies, scope, answers[k])
  }

  /** The constraints are all that the first n classifiers answered, and no others. */
  ghost predicate Gathered(ports: Ports, from: nat, upto: nat, evidence: seq<Envelope>, policies: seq<PolicyResult>, scope: Scope,
                           constraints: seq<Constraint>, n: nat)
  {
    exists answers :: |answers| == n && Answered(ports, from, upto, evidence, policies, scope, answers)
                      && multiset(constraints) == multiset(Flatten(answers))
  }

  ghost predicate InterpretedAs(ports: Ports, from: nat, upto: nat, constraints: seq<Constraint>, policies: seq<PolicyResult>,
                                scope: Scope, o: Objective)
  {
    exists t: nat :: from <= t < upto && ports.interpret(t, constraints, policies, scope) == Ok(o)
  }

  ghost predicate PlannedAs(ports: Ports, from: nat, upto: nat, evidence: seq<Envelope>, policies: seq<PolicyResult>,
                            constraints: seq<Constraint>, o: Objective, scope: Scope, answer: Option<Plan>)
  {
    exists t: nat :: from <= t < upto && ports.propose(t, evidence, policies, constraints, o, scope) == Ok(answer)
  }

  ghost predicate ChallengedBy(ports: Ports, from: nat, upto: nat, check: string, c: Candidate, evidence: seq<Envelope>, scope: Scope,
                               now: Instant, f: Finding)
  {
    exists t: nat :: from <= t < upto && ports.challenge(t, check, c, evidence, scope, now) == Ok(f)
  }

  /** The first checks in their order, one finding each. */
  ghost predicate AllChallenged(ports: Ports, from: nat, upto: nat, checks: seq<string>, c: Candidate, evidence: seq<Envelope>,
                                scope: Scope, now: Instant, findings: seq<Finding>)
  {
    && |findings| <= |checks|
    && forall k :: 0 <= k < |findings| ==> ChallengedBy(ports, from, upto, checks[k], c, evidence, scope, now, findings[k])
  }

  ghost predicate SignedAs(ports: Ports, from: nat, upto: nat, package: Package, keyId: string, text: string) {
    exists t: nat :: from <= t < upto && ports.sign(t, package, keyId).Ok? && |ports.sign(t, package, keyId).value| == 64
                     && text == SignatureText(ports.sign(t, package, keyId).value)
  }

  /** The sink answered with the receipt, or raised if there is none. */
  ghost predicate DeliveredAs(ports: Ports, from: nat, upto: nat, signed: Signed, receipt: Option<ProposalReceipt>) {
    exists t: nat :: from <= t < upto
      && if receipt.Some? then ports.deliver(t, signed) == Ok(receipt.value) else ports.deliver(t, signed).Raise?
  }

  // ----- What was answered up to each program point -----

  ghost predicate PoliciesAsked(ports: Ports, from: nat, upto: nat, d: Docket) {
    ClockRead(ports, from, upto, d.now) && AllEvaluated(ports, from, upto, d.evidence, d.scope, d.policies)
  }

  ghost predicate ConstraintsAsked(ports: Ports, from: nat, upto: nat, d: Docket, n: nat) {
    PoliciesAsked(ports, from, upto, d) && Gathered(ports, from, upto, d.evidence, d.policies, d.scope, d.constraints, n)
  }

  ghost predicate ObjectiveAsked(setup: Setup, ports: Ports, from: nat, upto: nat, d: Docket) {
    && ConstraintsAsked(ports, from, upto, d, setup.classifiers)
    && d.objective.Some? && InterpretedAs(ports, from, upto, d.constraints, d.policies, d.scope, d.objective.value)
  }

  ghost predicate PlanAsked(setup: Setup, ports: Ports, from: nat, upto: nat, d: Docket) {
    && ObjectiveAsked(setup, ports, from, upto, d)
    && PlannedAs(ports, from, upto, d.evidence, d.policies, d.constraints, d.objective.value, d.scope, d.plan) && d.plan.Some?
  }

  ghost predicate FindingsAsked(setup: Setup, ports: Ports, from: nat, upto: nat, d: Docket) {
    && PlanAsked(setup, ports, from, upto, d) && Planned(setup, d)
    && AllChallenged(ports, from, upto, RequiredChecks(setup, d), Choice(d), d.evidence, d.scope, d.now, d.findings)
  }

  ghost predicate SignatureAsked(setup: Setup, ports: Ports, from: nat, upto: nat, d: Docket, signed: Signed) {
    FindingsAsked(setup, ports, from, upto, d) && SignedAs(ports, from, upto, signed.package, setup.keyId, signed.signature)
  }

  ghost predicate DeliveryAsked(setup: Setup, ports: Ports, from: nat, upto: nat, d: Docket, r: KernelResult) {
    && r.signed.Some? && SignatureAsked(setup, ports, from, upto, d, r.signed.value)
    && DeliveredAs(ports, from, upto, r.signed.value, r.receipt)
  }

  /** What was answered when a cycle ends for the given cause. */
  ghost predicate CauseAsked(setup: Setup, ports: Ports, from: nat, upto: nat, d: Docket, cause: Cause) {
    match cause
    case Foreign(_) => ClockRead(ports, from, upto, d.now)
    case Stale(_) => ClockRead(ports, from, upto, d.now)
    case Denied => PoliciesAsked(ports, from, upto, d)
    case NoConstraints => ConstraintsAsked(ports, from, upto, d, setup.classifiers)
    case NoPlan =>
      && ObjectiveAsked(setup, ports, from, upto, d)
      && PlannedAs(ports, from, upto, d.evidence, d.policies, d.constraints, d.objective.value, d.scope, None)
    case Falsified => FindingsAsked(setup, ports, from, upto, d)
  }

  ghost predicate AskedAt(setup: Setup, ports: Ports, from: nat, upto: nat, d: Docket, phase: Phase) {
    match phase
    case Evidence(_) => ClockRead(ports, from, upto, d.now)
    case Policy(_) => PoliciesAsked(ports, from, upto, d)
    case Classify(i) => i <= setup.classifiers && ConstraintsAsked(ports, from, upto, d, i)
    case Classified(_) => ConstraintsAsked(ports, from, upto, d, setup.classifiers)
    case Interpret => ConstraintsAsked(ports, from, upto, d, setup.classifiers)
    case Planning => ObjectiveAsked(setup, ports, from, upto, d)
    case Challenge(_) => FindingsAsked(setup, ports, from, upto, d)
    case Signing(_) => FindingsAsked(setup, ports, from, upto, d)
    case Delivery(signed) => SignatureAsked(setup, ports, from, upto, d, signed)
    case Settle(r) => DeliveryAsked(setup, ports, from, upto, d, r)
    case Reject(cause) => CauseAsked(setup, ports, from, upto, d, cause)
    case CacheRejection(cause) => CauseAsked(setup, ports, from, upto, d, cause)
    case Finished(_, Closed(cause)) => CauseAsked(setup, ports, from, upto, d, cause)
    case Finished(r, Settled) => DeliveryAsked(setup, ports, from, upto, d, r)
    case Finished(r, Unrecorded) => DeliveryAsked(setup, ports, from, upto, d, r)
    case _ => true
  }

  ghost predicate Asked(setup: Setup, ports: Ports, from: nat, upto: nat, m: Run) {
    AskedAt(setup, ports, from, upto, m.docket, Target(m.phase))
  }

  // ----- Every step keeps the account -----

  /** What was answered stays answered. */
  lemma AskedLater(setup: Setup, ports: Ports, from: nat, upto: nat, later: nat, d: Docket, phase: Phase)
    requires upto <= later && AskedAt(setup, ports, from, upto, d, phase)
    ensures AskedAt(setup, ports, from, later, d, phase)
  {
    hide Planned, RequiredChecks, Choice, Flatten, SignatureText;
    GatheredLater(ports, from, upto, later, d);
  }

  lemma GatheredLater(ports: Ports, from: nat, upto: nat, later: nat, d: Docket)
    requires upto <= later
    ensures forall n: nat :: Gathered(ports, from, upto, d.evidence, d.policies, d.scope, d.constraints, n) ==>
                        Gathered(ports, from, later, d.evidence, d.policies, d.scope, d.constraints, n)
  {
    hide Flatten;
  }

  lemma ClockAsked(setup: Setup, ports: Ports, from: nat, calls: nat, later: nat, m: Run)
    requires m.phase.ReadClock? && from <= calls < later
    ensures Asked(setup, ports, from, later, ClockStep(m, ports.clock(calls)))
  {
    hide OneCorrelation, Distinct, Map;
  }

  lemma EvidenceOpens(setup: Setup, ports: Ports, from: nat, later: nat, m: Run)
    requires m.phase.Evidence? && Holds(setup, m) && Asked(setup, ports, from, later, m)
    ensures ClockRead(ports, from, later, m.docket.now) && PoliciesAsked(ports, from, later, m.docket)
  {
    hide FreshAt, Admitted, Opened, ClockRead, Evaluated;
  }

  lemma EvidenceAsked(setup: Setup, ports: Ports, from: nat, later: nat, m: Run, i: nat)
    requires m.phase == Evidence(i) && Holds(setup, m) && Asked(setup, ports, from, later, m)
    ensures Asked(setup, ports, from, later, EvidenceStep(m, i))
  {
    hide Holds, FreshAt, ScopeReason, StaleReason, ClockRead, PoliciesAsked, ConstraintsAsked, ObjectiveAsked, FindingsAsked;
    hide SignatureAsked, DeliveryAsked;
    EvidenceOpens(setup, ports, from, later, m);
  }

  lemma PolicyKept(ports: Ports, from: nat, calls: nat, later: nat, d: Docket, r: PolicyResult)
    requires from <= calls < later && PoliciesAsked(ports, from, later, d)
    requires ports.evaluate(calls, |d.policies|, d.evidence, d.scope) == Ok(r)
    ensures PoliciesAsked(ports, from, later, d.(policies := d.policies + [r]))
  {
    hide ClockRead;
    assert Evaluated(ports, from, later, |d.policies|, d.evidence, d.scope, r);
    hide Evaluated;
  }

  lemma NothingGathered(ports: Ports, from: nat, later: nat, evidence: seq<Envelope>, policies: seq<PolicyResult>, scope: Scope)
    ensures Gathered(ports, from, later, evidence, policies, scope, [], 0)
  {
    var answers: seq<seq<Constraint>> := [];
    assert Answered(ports, from, later, evidence, policies, scope, answers) && Flatten(answers) == [];
  }

  /** The counters of the loops, as the gates keep them. */
  lemma CountsHold(setup: Setup, m: Run)
    requires Holds(setup, m)
    ensures m.phase.Policy? ==> |m.docket.policies| == m.phase.i && m.docket.constraints == []
    ensures m.phase.Planning? ==> m.docket.findings == []
    ensures m.phase.Challenge? ==> |m.docket.findings| == m.phase.i
  {
    hide PoliciesPassed, ObjectiveReady, PlanReady, CauseHolds, PackageReady, Proposable, AllAdmitted, PoliciesKept;
    hide ConstraintsReady, ConstraintsKept, FindingFits, Planned, RequiredChecks, Choice;
  }

  lemma PolicyAsked(setup: Setup, ports: Ports, from: nat, calls: nat, later: nat, m: Run, i: nat)
    requires m.phase == Policy(i) && Holds(setup, m) && Asked(setup, ports, from, later, m) && from <= calls
    requires i < setup.policies ==> calls < later
    ensures Asked(setup, ports, from, later, PolicyStep(setup, m, i, Ask(setup, ports, calls, m)))
  {
    hide Holds, PoliciesAsked, Gathered, AllAllowed, Distinct, Map, Inside, Known, Planned, RequiredChecks, Choice;
    hide FindingsAsked, ObjectiveAsked, SignatureAsked, DeliveryAsked;
    CountsHold(setup, m);
    var d := m.docket;
    if i < setup.policies {
      var answer := ports.evaluate(calls, i, d.evidence, d.scope);
      if answer.Ok? {
        PolicyKept(ports, from, calls, later, d, answer.value);
      }
    } else {
      NothingGathered(ports, from, later, d.evidence, d.policies, d.scope);
    }
  }

  lemma AnswerGathered(ports: Ports, from: nat, calls: nat, later: nat, d: Docket, n: nat, cs: seq<Constraint>)
    requires from <= calls < later && ConstraintsAsked(ports, from, later, d, n)
    requires ports.classify(calls, n, d.evidence, d.policies, d.scope) == Ok(cs)
    ensures ConstraintsAsked(ports, from, later, d.(constraints := d.constraints + cs), n + 1)
  {
    hide ClockRead, AllEvaluated, Flatten;
    var answers :| |answers| == n && Answered(ports, from, later, d.evidence, d.policies, d.scope, answers)
                   && multiset(d.constraints) == multiset(Flatten(answers));
    assert ClassifiedAs(ports, from, later, n, d.evidence, d.policies, d.scope, cs);
    hide ClassifiedAs;
    FlattenSnoc(answers, cs);
    assert Answered(ports, from, later, d.evidence, d.policies, d.scope, answers + [cs]);
  }

  lemma SortingGathers(ports: Ports, from: nat, later: nat, d: Docket, n: nat)
    requires ConstraintsAsked(ports, from, later, d, n)
    ensures ConstraintsAsked(ports, from, later, d.(constraints := SortConstraints(d.constraints)), n)
  {
    hide ClockRead, AllEvaluated, Answered, Flatten;
  }

  lemma ClassifyAsked(setup: Setup, ports: Ports, from: nat, calls: nat, later: nat, m: Run, i: nat)
    requires m.phase == Classify(i) && Asked(setup, ports, from, later, m) && from <= calls
    requires i < setup.classifiers ==> calls < later
    ensures Asked(setup, ports, from, later, ClassifyStep(setup, m, i, Ask(setup, ports, calls, m)))
  {
    hide ConstraintsAsked, SortConstraints, ConstraintsInside, Distinct, Map, Known;
    var d := m.docket;
    if i < setup.classifiers {
      var answer := ports.classify(calls, i, d.evidence, d.policies, d.scope);
      if answer.Ok? {
        AnswerGathered(ports, from, calls, later, d, i, answer.value);
      }
    } else {
      SortingGathers(ports, from, later, d, i);
    }
  }

  lemma InterpretAsked(setup: Setup, ports: Ports, from: nat, calls: nat, later: nat, m: Run)
    requires m.phase.Interpret? && Asked(setup, ports, from, later, m) && from <= calls < later
    ensures Asked(setup, ports, from, later, InterpretStep(m, Ask(setup, ports, calls, m)))
  {
    hide ClockRead, AllEvaluated, Gathered, ObjectiveFits;
  }

  lemma PlanningAsked(setup: Setup, ports: Ports, from: nat, calls: nat, later: nat, m: Run)
    requires m.phase.Planning? && Holds(setup, m) && Asked(setup, ports, from, later, m) && from <= calls < later
    ensures Asked(setup, ports, from, later, PlanningStep(setup, m, Ask(setup, ports, calls, m)))
  {
    hide Holds, ClockRead, AllEvaluated, Gathered, InterpretedAs, PlanFits, Planned, RequiredChecks, Choice;
    hide SignatureAsked, DeliveryAsked;
    CountsHold(setup, m);
    var d := m.docket;
    var answer := ports.propose(calls, d.evidence, d.policies, d.constraints, d.objective.value, d.scope);
    if answer.Ok? {
      assert PlannedAs(ports, from, later, d.evidence, d.policies, d.constraints, d.objective.value, d.scope, answer.value);
      hide PlannedAs;
      if answer.value.Some? && PlanFits(setup, d, d.objective.value, answer.value.value) {
        FitIsPlanned(setup, d, answer.value.value);
        NoFindingsYet(setup, ports, from, later, d.(plan := answer.value));
      }
    }
  }

  lemma NoFindingsYet(setup: Setup, ports: Ports, from: nat, later: nat, d: Docket)
    requires d.findings == [] && Planned(setup, d)
    ensures AllChallenged(ports, from, later, RequiredChecks(setup, d), Choice(d), d.evidence, d.scope, d.now, d.findings)
  {
    hide Admitting, Selected;
  }

  lemma FitIsPlanned(setup: Setup, d: Docket, p: Plan)
    requires d.objective.Some? && PlanFits(setup, d, d.objective.value, p)
    ensures Planned(setup, d.(plan := Some(p)))
  {
    hide CandidatesFit, Priced, Cheapest, Covers, Admitting;
  }

  lemma ChallengeAsked(setup: Setup, ports: Ports, from: nat, calls: nat, later: nat, m: Run, i: nat)
    requires m.phase == Challenge(i) && Planned(setup, m.docket)
    requires Holds(setup, m) && Asked(setup, ports, from, later, m) && from <= calls
    requires i < |RequiredChecks(setup, m.docket)| ==> calls < later
    ensures Asked(setup, ports, from, later, ChallengeStep(setup, m, i, Ask(setup, ports, calls, m)))
  {
    hide Holds, FindingsAsked, FindingFits, Coherent, BuildPackage, AllSurvive, Admitting, RequiredChecks, Choice;
    hide ObjectiveAsked, SignatureAsked, DeliveryAsked, ConstraintsAsked, PoliciesAsked;
    CountsHold(setup, m);
    var d := m.docket;
    if i < |RequiredChecks(setup, d)| {
      var answer := ports.challenge(calls, RequiredChecks(setup, d)[i], Choice(d), d.evidence, d.scope, d.now);
      if answer.Ok? {
        FindingKept(setup, ports, from, calls, later, d, answer.value);
      }
    }
  }

  lemma FindingKept(setup: Setup, ports: Ports, from: nat, calls: nat, later: nat, d: Docket, f: Finding)
    requires from <= calls < later && FindingsAsked(setup, ports, from, later, d) && |d.findings| < |RequiredChecks(setup, d)|
    requires ports.challenge(calls, RequiredChecks(setup, d)[|d.findings|], Choice(d), d.evidence, d.scope, d.now) == Ok(f)
    ensures FindingsAsked(setup, ports, from, later, d.(findings := d.findings + [f]))
  {
    hide ClockRead, AllEvaluated, Gathered, InterpretedAs, PlannedAs, Admitting, Selected;
    assert ChallengedBy(ports, from, later, RequiredChecks(setup, d)[|d.findings|], Choice(d), d.evidence, d.scope, d.now, f);
    hide ChallengedBy;
  }

  lemma SigningAsked(setup: Setup, ports: Ports, from: nat, calls: nat, later: nat, m: Run, package: Package)
    requires m.phase == Signing(package) && Asked(setup, ports, from, later, m) && from <= calls < later
    ensures Asked(setup, ports, from, later, SigningStep(setup, m, package, Ask(setup, ports, calls, m)))
  {
    hide FindingsAsked, SignatureText, Sized;
  }

  lemma DeliveryIsAsked(setup: Setup, ports: Ports, from: nat, calls: nat, later: nat, cache: Cache, m: Run, signed: Signed)
    requires m.phase == Delivery(signed) && Asked(setup, ports, from, later, m) && from <= calls < later
    ensures Asked(setup, ports, from, later, DeliveryStep(cache, m, signed, Ask(setup, ports, calls, m)).run)
  {
    hide SignatureAsked, DeliveryEvent, Put, Correlation, UnknownReason, MismatchReason;
  }

  lemma RecordingAsked(setup: Setup, ports: Ports, from: nat, later: nat, cache: Cache, m: Run, a: Input)
    requires m.phase.Recording? && Holds(setup, m) && Asked(setup, ports, from, later, m)
    ensures Asked(setup, ports, from, later, RecordingStep(setup, cache, m, a).run)
  {
    hide SignatureAsked, DeliveredAs, CauseAsked, FindingsAsked, ObjectiveAsked, ConstraintsAsked, PoliciesAsked, ClockRead;
    hide Put, UnrecordedReason, HoldsAt;
  }

  lemma OtherAsked(setup: Setup, ports: Ports, from: nat, later: nat, cache: Cache, m: Run, a: Input)
    requires m.phase.Settle? || m.phase.Reject? || m.phase.CacheRejection? || m.phase.Classified? || m.phase.Lookup?
    requires Asked(setup, ports, from, later, m)
    ensures Asked(setup, ports, from, later, Step(setup, cache, m, a).run)
  {
    hide SignatureAsked, DeliveredAs, CauseAsked, FindingsAsked, ObjectiveAsked, ConstraintsAsked, PoliciesAsked, ClockRead;
    hide Put, Correlation, CauseReasons, CauseStatus, EvidenceStep, PolicyStep, ClassifyStep, InterpretStep, PlanningStep;
    hide ChallengeStep, SigningStep, ClockStep, RecordingStep, DeliveryStep;
  }

  lemma StepAsked(setup: Setup, ports: Ports, from: nat, calls: nat, cache: Cache, m: Run)
    requires !Terminal(m.phase) && Holds(setup, m) && Asked(setup, ports, from, calls, m) && from <= calls
    ensures var a := Ask(setup, ports, calls, m);
      Asked(setup, ports, from, Calls(calls, a), Step(setup, cache, m, a).run)
  {
    hide Holds, AskedAt, LookupStep, ClockStep, EvidenceStep, PolicyStep, ClassifyStep, ClassifiedStep, InterpretStep;
    hide PlanningStep, ChallengeStep, SigningStep, RejectStep, DeliveryStep, SettleStep, CacheRejectionStep, RecordingStep;
    hide Correlation, Choice, RequiredChecks, Planned;
    var a := Ask(setup, ports, calls, m);
    var later := Calls(calls, a);
    AskedLater(setup, ports, from, calls, later, m.docket, Target(m.phase));
    match m.phase
    case ReadClock => ClockAsked(setup, ports, from, calls, later, m);
    case Evidence(i) => EvidenceAsked(setup, ports, from, later, m, i);
    case Policy(i) => PolicyAsked(setup, ports, from, calls, later, m, i);
    case Classify(i) => ClassifyAsked(setup, ports, from, calls, later, m, i);
    case Interpret => InterpretAsked(setup, ports, from, calls, later, m);
    case Planning => PlanningAsked(setup, ports, from, calls, later, m);
    case Challenge(i) =>
      ChallengeIsPlanned(setup, ports, from, later, m, i);
      ChallengeAsked(setup, ports, from, calls, later, m, i);
    case Signing(package) => SigningAsked(setup, ports, from, calls, later, m, package);
    case Delivery(signed) => DeliveryIsAsked(setup, ports, from, calls, later, cache, m, signed);
    case Recording(_, _, _) => RecordingAsked(setup, ports, from, later, cache, m, a);
    case _ => OtherAsked(setup, ports, from, later, cache, m, a);
  }

  lemma ChallengeIsPlanned(setup: Setup, ports: Ports, from: nat, later: nat, m: Run, i: nat)
    requires m.phase == Challenge(i) && Asked(setup, ports, from, later, m)
    ensures Planned(setup, m.docket)
  {
    hide PlanAsked, AllChallenged, Planned;
  }

  lemma {:induction false} DriveAsked(setup: Setup, ports: Ports, from: nat, cache: Cache, m: Run, calls: nat)
    requires Lawful(ports) && Flat(m.phase) && Holds(setup, m) && Asked(setup, ports, from, calls, m) && from <= calls
    ensures var o := Drive(setup, ports, cache, m, calls); Asked(setup, ports, from, o.calls, o.run)
    decreases Stage(Target(m.phase)), Rounds(setup, m.docket, Target(m.phase)), Writes(setup, m.phase)
  {
    hide Asked, Holds, Step, Ask, WellTyped, Lawful, Rounds, Stage, Writes, Resumes, Terminal;
    if !Terminal(m.phase) {
      var a := Ask(setup, ports, calls, m);
      AskWellTyped(setup, ports, calls, m);
      StepAsked(setup, ports, from, calls, cache, m);
      StepHolds(setup, cache, m, a);
      EveryStepDescends(setup, ports, cache, calls, m);
      var p := Step(setup, cache, m, a);
      DriveAsked(setup, ports, from, p.cache, p.run, Calls(calls, a));
    }
  }

  // ----- What stands in an offered package -----

  /** Created when the clock was read; expires with the decision TTL or the first envelope. */
  ghost predicate TimesAnswered(setup: Setup, ports: Ports, from: nat, upto: nat, evidence: seq<Envelope>, p: Package) {
    && ClockRead(ports, from, upto, p.createdAt)
    && p.expiresAt <= p.createdAt + setup.ttl && (forall e :: e in evidence ==> p.expiresAt <= e.metadata.expiresAt)
    && (p.expiresAt == p.createdAt + setup.ttl || exists e :: e in evidence && p.expiresAt == e.metadata.expiresAt)
  }

  predicate RefersTo(hash: Hashing, r: EvidenceReference, e: Envelope) {
    && r.id == e.metadata.id && r.producer == e.metadata.producer && r.schemaUri == e.metadata.schemaUri
    && r.artifactDigest == e.assurance.digest && r.envelopeDigest == hash.envelope(e) && r.artifactUri == e.assurance.artifactUri
  }

  /** One reference for every envelope, in order, and every artifact digest once. */
  ghost predicate EvidenceListed(hash: Hashing, evidence: seq<Envelope>, p: Package) {
    && |p.evidence| == |evidence| && (forall i :: 0 <= i < |evidence| ==> RefersTo(hash, p.evidence[i], evidence[i]))
    && (forall x :: x in p.evidenceRefs <==> exists i :: 0 <= i < |evidence| && evidence[i].assurance.digest == x)
    && exists picks: seq<nat> :: Increasing(picks) && |picks| == |p.evidenceRefs| && FirstCited(evidence, p.evidenceRefs, picks)
  }

  /** The digests stand in the order in which they first occur, once each. */
  predicate FirstCited(evidence: seq<Envelope>, refs: seq<string>, picks: seq<nat>)
    requires |picks| == |refs|
  {
    forall k :: 0 <= k < |picks| ==>
      && picks[k] < |evidence| && refs[k] == evidence[picks[k]].assurance.digest
      && forall i :: 0 <= i < picks[k] ==> evidence[i].assurance.digest != refs[k]
  }

  predicate NameThenId(a: Constraint, b: Constraint) {
    if a.name == b.name then a.id == b.id || Precedes(a.id, b.id) else Precedes(a.name, b.name)
  }

  /** The answer of every policy check, all allowing; all constraints of all classifiers, by name
      and id; the interpreter's objective for them. */
  ghost predicate GatesAnswered(setup: Setup, ports: Ports, from: nat, upto: nat, evidence: seq<Envelope>, scope: Scope, p: Package) {
    && |p.policies| == setup.policies && AllEvaluated(ports, from, upto, evidence, scope, p.policies)
    && (forall r :: r in p.policies ==> r.allowed)
    && Gathered(ports, from, upto, evidence, p.policies, scope, p.constraints, setup.classifiers)
    && (forall i, j :: 0 <= i < j < |p.constraints| ==> NameThenId(p.constraints[i], p.constraints[j]))
    && InterpretedAs(ports, from, upto, p.constraints, p.policies, scope, p.objective)
  }

  /** The planner's plan for that objective; the selected candidate is no dearer than any other,
      covers the hard constraints, and survived every check its action requires. */
  ghost predicate PlanAnswered(setup: Setup, ports: Ports, from: nat, upto: nat, evidence: seq<Envelope>, scope: Scope, p: Package) {
    && (exists plan :: PlannedAs(ports, from, upto, evidence, p.policies, p.constraints, p.objective, scope, Some(plan))
                       && p.candidates == plan.candidates && p.selectedId == plan.selectedId && p.rejected == plan.rejected)
    && exists c :: c in p.candidates && c.id == p.selectedId && Survived(setup, ports, from, upto, evidence, scope, p, c)
  }

  ghost predicate Survived(setup: Setup, ports: Ports, from: nat, upto: nat, evidence: seq<Envelope>, scope: Scope, p: Package, c: Candidate) {
    && c.action in setup.definitions && |p.findings| == |setup.definitions[c.action].checks|
    && AllChallenged(ports, from, upto, setup.definitions[c.action].checks, c, evidence, scope, p.createdAt, p.findings)
    && (forall f :: f in p.findings ==> f.verdict.Survives?)
    && (forall check :: check in setup.definitions[c.action].checks ==> check in setup.checks)
    && (forall k :: k in p.constraints && k.hard ==> k.id in c.constraintRefs)
    && forall other :: other in p.candidates ==>
         Cost(p.objective, c).Some? && Cost(p.objective, other).Some? && Cost(p.objective, c).value <= Cost(p.objective, other).value
  }

  lemma TimesKept(setup: Setup, ports: Ports, from: nat, upto: nat, d: Docket)
    requires FindingsAsked(setup, ports, from, upto, d)
    ensures TimesAnswered(setup, ports, from, upto, d.evidence, BuildPackage(setup, d))
  {
    hide AllEvaluated, Gathered, InterpretedAs, PlannedAs, AllChallenged, RequiredChecks, Choice, Admitting, ClockRead;
    hide References, Dedup, Map, EarliestExpiry;
    ExpiryBounds(d.evidence, d.now + setup.ttl);
  }

  lemma ReferencesKept(setup: Setup, d: Docket)
    requires Planned(setup, d)
    ensures EvidenceListed(setup.hash, d.evidence, BuildPackage(setup, d))
  {
    hide Planned, EarliestExpiry, Correlation;
    var p, digests := BuildPackage(setup, d), Map(DigestOf, d.evidence);
    assert forall i :: 0 <= i < |d.evidence| ==> p.evidence[i] == References(setup.hash)(d.evidence[i]);
    var picks := DedupPicks(digests);
    assert FirstCited(d.evidence, p.evidenceRefs, picks) by {
      forall k | 0 <= k < |picks|
        ensures p.evidenceRefs[k] == d.evidence[picks[k]].assurance.digest
        ensures forall i :: 0 <= i < picks[k] ==> d.evidence[i].assurance.digest != p.evidenceRefs[k]
      {
        assert FirstAt(digests, p.evidenceRefs[k], picks[k]);
        assert forall i :: 0 <= i < picks[k] ==> digests[..picks[k]][i] == d.evidence[i].assurance.digest;
      }
    }
    forall x ensures x in digests <==> exists i :: 0 <= i < |d.evidence| && d.evidence[i].assurance.digest == x {
      if x in digests {
        var i :| 0 <= i < |digests| && digests[i] == x;
        assert d.evidence[i].assurance.digest == x;
      }
      if i :| 0 <= i < |d.evidence| && d.evidence[i].assurance.digest == x {
        assert digests[i] == x;
      }
    }
  }

  lemma KeyOrder(a: Constraint, b: Constraint)
    requires ByKey(ConstraintKey, TupleLe)(a, b)
    ensures NameThenId(a, b)
  {
    hide Precedes, StringLe;
    StringLePrecedes(a.name, b.name);
    StringLePrecedes(a.id, b.id);
    var x, y := ConstraintKey(a), ConstraintKey(b);
    assert x[1..] == [a.id] && y[1..] == [b.id];
    assert LexLe(x, y, StringLe);
    if a.name == b.name {
      assert LexLe([a.id], [b.id], StringLe);
    }
  }

  lemma GatesKept(setup: Setup, ports: Ports, from: nat, upto: nat, d: Docket)
    requires FindingsAsked(setup, ports, from, upto, d) && PackageReady(setup, d)
    ensures GatesAnswered(setup, ports, from, upto, d.evidence, d.scope, BuildPackage(setup, d))
  {
    hide AllEvaluated, Gathered, InterpretedAs, PlannedAs, AllChallenged, RequiredChecks, Choice, Admitting, ClockRead;
    hide References, Dedup, Map, EarliestExpiry, PlanFits, ValidPlan, ObjectiveFits, ValidObjective, Precedes, NameThenId;
    hide FindingsKept, AllSurvive, AllAdmitted, PoliciesKept, ConstraintsKept, Distinct;
    var cs := d.constraints;
    forall i, j | 0 <= i < j < |cs| ensures NameThenId(cs[i], cs[j]) {
      KeyOrder(cs[i], cs[j]);
    }
  }

  lemma SelectionKept(setup: Setup, ports: Ports, from: nat, upto: nat, d: Docket)
    requires FindingsAsked(setup, ports, from, upto, d) && PackageReady(setup, d)
    ensures Survived(setup, ports, from, upto, d.evidence, d.scope, BuildPackage(setup, d), Choice(d))
  {
    hide AllEvaluated, Gathered, InterpretedAs, PlannedAs, ClockRead, ObjectiveReady, ValidPlan, Cost, CandidatesFit;
    hide References, Dedup, Map, EarliestExpiry, FindingFits;
  }

  lemma PlanKept(setup: Setup, ports: Ports, from: nat, upto: nat, d: Docket)
    requires FindingsAsked(setup, ports, from, upto, d) && PackageReady(setup, d)
    ensures PlanAnswered(setup, ports, from, upto, d.evidence, d.scope, BuildPackage(setup, d))
  {
    SelectionKept(setup, ports, from, upto, d);
    hide AllEvaluated, Gathered, InterpretedAs, PlannedAs, ClockRead, PackageReady, AllChallenged, Survived, RequiredChecks;
    hide References, Dedup, Map, EarliestExpiry, Admitting;
  }

  /** Every part of the offered package, and its signature, is an answer from this call. */
  ghost predicate FullyAnswered(setup: Setup, ports: Ports, from: nat, upto: nat, evidence: seq<Envelope>, scope: Scope, signed: Signed) {
    var p := signed.package;
    && TimesAnswered(setup, ports, from, upto, evidence, p) && EvidenceListed(setup.hash, evidence, p)
    && GatesAnswered(setup, ports, from, upto, evidence, scope, p) && PlanAnswered(setup, ports, from, upto, evidence, scope, p)
    && SignedAs(ports, from, upto, p, setup.keyId, signed.signature)
  }

  lemma ProposableAnswered(setup: Setup, ports: Ports, from: nat, upto: nat, d: Docket, signed: Signed)
    requires Proposable(setup, d, signed) && SignatureAsked(setup, ports, from, upto, d, signed)
    ensures FullyAnswered(setup, ports, from, upto, d.evidence, d.scope, signed)
  {
    hide FindingsAsked, PackageReady, Coherent, BuildPackage, IsSignatureText, TimesAnswered, EvidenceListed;
    hide GatesAnswered, PlanAnswered, SignedAs, Planned;
    ReadyIsPlanned(setup, d);
    TimesKept(setup, ports, from, upto, d);
    ReferencesKept(setup, d);
    GatesKept(setup, ports, from, upto, d);
    PlanKept(setup, ports, from, upto, d);
  }

  lemma ReadyIsPlanned(setup: Setup, d: Docket)
    requires PackageReady(setup, d)
    ensures Planned(setup, d)
  {
    hide Planned, PlanReady, FindingFits, RequiredChecks, Choice;
  }

  lemma CallAsked(setup: Setup, ports: Ports, cache: Cache, calls: nat, evidence: seq<Envelope>, scope: Scope)
    requires Lawful(ports)
    ensures var o := Call(setup, ports, cache, calls, evidence, scope); Asked(setup, ports, calls, o.calls, o.run)
  {
    hide Holds, Lawful, CycleKey, Arrange, Drive;
    BeginHolds(setup, evidence, scope);
    DriveAsked(setup, ports, calls, cache, Begin(setup, evidence, scope), calls);
  }

  /** The run that made the offer, at its end. */
  lemma OfferedAtEnd(setup: Setup, ports: Ports, from: nat, upto: nat, before: Cache, now: Cache, m: Run, signed: Signed)
    requires Asked(setup, ports, from, upto, m) && Holds(setup, m) && Done(before, now, m) && Terminal(m.phase)
    requires signed in m.offered
    ensures Proposable(setup, m.docket, signed) && SignatureAsked(setup, ports, from, upto, m.docket, signed)
    ensures m.phase.Finished? && (m.phase.ending.Settled? || m.phase.ending.Unrecorded?)
    ensures DeliveredAs(ports, from, upto, signed, m.phase.result.receipt)
  {
    hide Proposable, SignatureAsked, DeliveredAs, CauseHolds, CauseAsked, CauseReasons, CauseStatus;
  }

  ghost predicate OfferAnswered(setup: Setup, ports: Ports, from: nat, upto: nat, evidence: seq<Envelope>, scope: Scope, m: Run, signed: Signed) {
    && FullyAnswered(setup, ports, from, upto, evidence, scope, signed)
    && m.phase.Finished? && DeliveredAs(ports, from, upto, signed, m.phase.result.receipt)
  }

  /** Every part of a package that a call offers is what a port answered during the call, when it
      was asked about the caller's evidence and the parts before it; the receipt in the result is
      what the sink answered, and missing exactly if the sink raised. */
  lemma OffersAreAnswered(setup: Setup, ports: Ports, cache: Cache, calls: nat, evidence: seq<Envelope>, scope: Scope)
    requires Lawful(ports)
    ensures var o := Call(setup, ports, cache, calls, evidence, scope);
      forall signed :: signed in o.run.offered ==>
        OfferAnswered(setup, ports, calls, o.calls, Arrange(setup.hash, evidence), scope, o.run, signed)
  {
    hide Call, Lawful, Done, Holds, Tracked, CycleKey, Arrange, Asked, FullyAnswered, Proposable, SignatureAsked, DeliveredAs;
    CallSound(setup, ports, cache, calls, evidence, scope);
    CallAsked(setup, ports, cache, calls, evidence, scope);
    var o := Call(setup, ports, cache, calls, evidence, scope);
    forall signed | signed in o.run.offered
      ensures OfferAnswered(setup, ports, calls, o.calls, Arrange(setup.hash, evidence), scope, o.run, signed)
    {
      OfferedAtEnd(setup, ports, calls, o.calls, cache, o.cache, o.run, signed);
      ProposableAnswered(setup, ports, calls, o.calls, o.run.docket, signed);
    }
  }

  // ----- The package and the proof trail -----

  /** The trail starts with the evidence, and then has what stands in the package, part by part. */
  ghost predicate OnRecord(events: seq<Event>, evidence: seq<Envelope>, p: Package) {
    var a := |evidence|; var b := a + |p.policies|; var c := b + |p.constraints|;
    && c + 1 + |p.findings| <= |events|
    && (forall i :: 0 <= i < |evidence| ==> events[i] == EvidenceAccepted(evidence[i]))
    && (forall i :: 0 <= i < |p.policies| ==> events[a + i] == PolicyEvaluated(p.policies[i]))
    && (forall i :: 0 <= i < |p.constraints| ==> events[b + i] == ConstraintClassified(p.constraints[i]))
    && events[c] == ObjectiveInterpreted(p.objective)
    && forall i :: 0 <= i < |p.findings| ==> events[c + 1 + i] == FalsificationCompleted(p.findings[i])
  }

  lemma FindingsOnRecord(setup: Setup, d: Docket, more: seq<Event>)
    requires Planned(setup, d)
    ensures OnRecord(ThroughFindings(d) + more, d.evidence, BuildPackage(setup, d))
  {
    hide Admitting, Choice, EarliestExpiry, Correlation, References, Dedup, ThroughFindings;
    var p := BuildPackage(setup, d);
    FindingsTrail(d);
    var events := ThroughFindings(d) + more;
    var a := |d.evidence|; var b := a + |p.policies|; var c := b + |p.constraints|;
    assert |events| >= c + 1 + |p.findings|;
    assert forall i :: 0 <= i < |p.policies| ==> events[a + i] == Map(PolicyEvent, d.policies)[i];
    assert forall i :: 0 <= i < |p.constraints| ==> events[b + i] == Map(ConstraintEvent, d.constraints)[i];
    assert forall i :: 0 <= i < |p.findings| ==> events[c + 1 + i] == Map(FindingEvent, d.findings)[i];
  }

  lemma EventsAtEnd(setup: Setup, m: Run) returns (more: seq<Event>)
    requires Tracked(setup, m) && m.phase.Finished? && (m.phase.ending.Settled? || m.phase.ending.Unrecorded?)
    ensures Map(EventOf, m.trail) == ThroughFindings(m.docket) + more
  {
    hide Receipted, ResultReceipted, ThroughFindings, ClosingEvents, Map, ThroughCause, RejectionEvent, ThroughEvidence;
    hide ThroughPolicies, ThroughConstraints, ThroughObjective;
    more := if m.phase.ending.Settled? then ClosingEvents(m.phase.result) else [];
    assert ThroughFindings(m.docket) + [] == ThroughFindings(m.docket);
  }

  /** What stands in an offered package is what the proof recorders were shown before it was
      signed: in the same order, nothing more and nothing less. */
  lemma OffersAreOnRecord(setup: Setup, ports: Ports, cache: Cache, calls: nat, evidence: seq<Envelope>, scope: Scope)
    requires Lawful(ports)
    ensures var m := Call(setup, ports, cache, calls, evidence, scope).run;
      forall signed :: signed in m.offered ==> OnRecord(Map(EventOf, m.trail), Arrange(setup.hash, evidence), signed.package)
  {
    hide Call, Lawful, Done, Holds, CycleKey, Arrange, Asked, Proposable, SignatureAsked, DeliveredAs, OnRecord;
    hide Tracked, ThroughFindings, ClosingEvents, Map;
    CallSound(setup, ports, cache, calls, evidence, scope);
    CallAsked(setup, ports, cache, calls, evidence, scope);
    var o := Call(setup, ports, cache, calls, evidence, scope);
    var m := o.run;
    forall signed | signed in m.offered ensures OnRecord(Map(EventOf, m.trail), Arrange(setup.hash, evidence), signed.package) {
      OfferedAtEnd(setup, ports, calls, o.calls, cache, o.cache, m, signed);
      ProposableIsBuilt(setup, m.docket, signed);
      var more := EventsAtEnd(setup, m);
      FindingsOnRecord(setup, m.docket, more);
    }
  }

  lemma ProposableIsBuilt(setup: Setup, d: Docket, signed: Signed)
    requires Proposable(setup, d, signed)
    ensures Planned(setup, d) && signed.package == BuildPackage(setup, d)
  {
    hide PackageReady, Coherent, IsSignatureText, Planned;
    ReadyIsPlanned(setup, d);
  }

  // ----- Rejections -----

  /** The reasons are those of the policy results that deny, in order. */
  ghost predicate DenialsListed(policies: seq<PolicyResult>, reasons: seq<string>) {
    exists picks: seq<nat> :: Increasing(picks) && |picks| == |reasons|
      && (forall k :: 0 <= k < |picks| ==>
            picks[k] < |policies| && reasons[k] == policies[picks[k]].checkId + ": " + policies[picks[k]].reason)
      && forall i :: 0 <= i < |policies| ==> (i in picks <==> !policies[i].allowed)
  }

  ghost predicate FailuresListed(findings: seq<Finding>, reasons: seq<string>) {
    exists picks: seq<nat> :: Increasing(picks) && |picks| == |reasons|
      && (forall k :: 0 <= k < |picks| ==>
            picks[k] < |findings| && reasons[k] == findings[picks[k]].checkId + ": " + findings[picks[k]].reasoning)
      && forall i :: 0 <= i < |findings| ==> (i in picks <==> findings[i].verdict.Fails?)
  }

  lemma DenialsAreListed(policies: seq<PolicyResult>)
    ensures DenialsListed(policies, DeniedReasons(policies))
  {
    var picks := FilterPicks(IsDenied, policies);
    var reasons := DeniedReasons(policies);
    forall k | 0 <= k < |picks| ensures picks[k] < |policies| && reasons[k] == DenialReason(policies[picks[k]]) {
      assert PickedAt(policies, Filter(IsDenied, policies)[k], picks[k]);
    }
  }

  lemma FailuresAreListed(findings: seq<Finding>)
    ensures FailuresListed(findings, FailedReasons(findings))
  {
    var picks := FilterPicks(IsFailed, findings);
    var reasons := FailedReasons(findings);
    forall k | 0 <= k < |picks| ensures picks[k] < |findings| && reasons[k] == FailureReason(findings[picks[k]]) {
      assert PickedAt(findings, Filter(IsFailed, findings)[k], picks[k]);
    }
  }

  /** The four causes with a reason of the kernel's own; a stale item is named by its id. */
  predicate KernelReason(d: Docket, cause: Cause, reason: string) {
    match cause
    case Foreign(_) => reason == "evidence scope does not match the requested cycle scope"
    case Stale(i) => i < |d.evidence| && reason == "evidence is outside its validity window: " + d.evidence[i].metadata.id
    case NoConstraints => reason == "no evidence-derived constraints were produced"
    case NoPlan => reason == "planner produced no candidate"
    case _ => false
  }

  lemma KernelSays(d: Docket, cause: Cause)
    requires cause.Foreign? || cause.NoConstraints? || cause.NoPlan? || (cause.Stale? && cause.i < |d.evidence|)
    ensures |CauseReasons(d, cause)| == 1 && KernelReason(d, cause, CauseReasons(d, cause)[0])
  {
    hide DeniedReasons, FailedReasons;
  }

  /** Without constraints or plan there is no candidate; everything else is a rejection, for the
      reasons that the policies or the checks gave. */
  ghost predicate ReasonsGiven(d: Docket, cause: Cause, r: KernelResult) {
    match cause
    case Foreign(_) => r.status == Declined && |r.reasons| == 1 && KernelReason(d, cause, r.reasons[0])
    case Stale(_) => r.status == Declined && |r.reasons| == 1 && KernelReason(d, cause, r.reasons[0])
    case Denied => r.status == Declined && DenialsListed(d.policies, r.reasons)
    case NoConstraints => r.status == NoCandidate && |r.reasons| == 1 && KernelReason(d, cause, r.reasons[0])
    case NoPlan => r.status == NoCandidate && |r.reasons| == 1 && KernelReason(d, cause, r.reasons[0])
    case Falsified => r.status == Declined && FailuresListed(d.findings, r.reasons)
  }

  lemma CauseGiven(setup: Setup, d: Docket, cause: Cause, r: KernelResult)
    requires CauseHolds(setup, d, cause) && r.status == CauseStatus(cause) && r.reasons == CauseReasons(d, cause)
    ensures ReasonsGiven(d, cause, r)
  {
    hide DenialsListed, FailuresListed, DeniedReasons, FailedReasons, ScopeReason, StaleReason, NoConstraintsReason, NoPlanReason;
    hide KernelReason, Opened, Admitted, AllAdmitted, PoliciesKept, PoliciesPassed, ObjectiveReady, Challenged, AllSurvive, AllAllowed;
    if cause.Denied? {
      DenialsAreListed(d.policies);
    } else if cause.Falsified? {
      FailuresAreListed(d.findings);
    } else {
      KernelSays(d, cause);
    }
  }

  /** A call that ends without a proposal was told so by the ports: what its cause rests on was
      answered during the call, up to the gate that failed, and so are the reasons it returns. */
  lemma RejectionsAreAnswered(setup: Setup, ports: Ports, cache: Cache, calls: nat, evidence: seq<Envelope>, scope: Scope)
    requires Lawful(ports)
    ensures var o := Call(setup, ports, cache, calls, evidence, scope); var m := o.run;
      About(setup, evidence, scope, m.docket) && (m.phase.Finished? && m.phase.ending.Closed? ==>
        && CauseAsked(setup, ports, calls, o.calls, m.docket, m.phase.ending.cause)
        && ReasonsGiven(m.docket, m.phase.ending.cause, m.phase.result))
  {
    hide Call, Lawful, CycleKey, Arrange, CauseHolds, CauseReasons, CauseStatus, Holds, CauseAsked, ReasonsGiven, ThroughCause;
    hide RejectionEvent, DeliveryAsked, Flatten;
    CallAsked(setup, ports, cache, calls, evidence, scope);
    RejectionsAreJustified(setup, ports, cache, calls, evidence, scope);
    var m := Call(setup, ports, cache, calls, evidence, scope).run;
    if m.phase.Finished? && m.phase.ending.Closed? {
      CauseGiven(setup, m.docket, m.phase.ending.cause, m.phase.result);
    }
  }
}
