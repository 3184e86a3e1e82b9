/** The proof trail: which events a run has written, in which order, and that the proof
    receipts in its result are exactly the receipts of those writes. */
module Trail {
  import opened Basics
  import opened Order
  import opened Contracts
  import opened KernelMachine
  import opened Gates

  // ----- The events that a docket calls for -----

  function AcceptedEvent(e: Envelope): Event { EvidenceAccepted(e) }

  function PolicyEvent(r: PolicyResult): Event { PolicyEvaluated(r) }

  function ConstraintEvent(c: Constraint): Event { ConstraintClassified(c) }

  function FindingEvent(f: Finding): Event { FalsificationCompleted(f) }

  function First<T>(xs: seq<T>, n: nat): seq<T> {
    if n < |xs| then xs[..n] else xs
  }

  function ThroughEvidence(d: Docket, n: nat): seq<Event> {
    Map(AcceptedEvent, First(d.evidence, n))
  }

  function ThroughPolicies(d: Docket): seq<Event> {
    ThroughEvidence(d, |d.evidence|) + Map(PolicyEvent, d.policies)
  }

  function ThroughConstraints(d: Docket, n: nat): seq<Event> {
    ThroughPolicies(d) + Map(ConstraintEvent, First(d.constraints, n))
  }

  function ThroughObjective(d: Docket): seq<Event> {
    ThroughConstraints(d, |d.constraints|) + (if d.objective.Some? then [ObjectiveInterpreted(d.objective.value)] else [])
  }

  function ThroughFindings(d: Docket): seq<Event> {
    ThroughObjective(d) + Map(FindingEvent, d.findings)
  }

  /** The event that closes a delivered cycle. */
  function ClosingEvents(r: KernelResult): seq<Event> {
    if r.signed.None? then []
    else if r.status.Proposed? && r.receipt.Some? then [DecisionProposed(r.signed.value, r.receipt.value)]
    else if r.reasons != [] then [DeliveryUnresolved(r.signed.value.digest, r.receipt, r.reasons[0])]
    else []
  }

  function ThroughCause(d: Docket, cause: Cause): seq<Event> {
    match cause
    case Foreign(i) =>
      ThroughEvidence(d, i) + (if i < |d.evidence| then [EvidenceRejected(ScopeReason(), d.evidence[i].metadata.id)] else [])
    case Stale(i) =>
      ThroughEvidence(d, i)
      + (if i < |d.evidence| then [EvidenceRejected(StaleReason(d.evidence[i]), d.evidence[i].metadata.id)] else [])
    case Denied => ThroughPolicies(d)
    case NoConstraints => ThroughPolicies(d)
    case NoPlan => ThroughObjective(d)
    case Falsified => ThroughFindings(d)
  }

  function RejectionEvent(d: Docket, cause: Cause): Event {
    DecisionRejected(CauseStatus(cause), d.key, CauseReasons(d, cause))
  }

  /** The events written when the run stands at the given point. */
  function EventsAt(d: Docket, phase: Phase): seq<Event> {
    match phase
    case Lookup => []
    case ReadClock => []
    case Evidence(i) => ThroughEvidence(d, i)
    case Policy(_) => ThroughPolicies(d)
    case Classify(_) => ThroughPolicies(d)
    case Classified(i) => ThroughConstraints(d, i)
    case Interpret => ThroughConstraints(d, |d.constraints|)
    case Planning => ThroughObjective(d)
    case Challenge(_) => ThroughFindings(d)
    case Signing(_) => ThroughFindings(d)
    case Delivery(_) => ThroughFindings(d)
    case Settle(r) => ThroughFindings(d) + ClosingEvents(r)
    case Reject(cause) => ThroughCause(d, cause)
    case CacheRejection(cause) => ThroughCause(d, cause) + [RejectionEvent(d, cause)]
    case Finished(_, Replayed) => []
    case Finished(_, Closed(cause)) => ThroughCause(d, cause) + [RejectionEvent(d, cause)]
    case Finished(r, Settled) => ThroughFindings(d) + ClosingEvents(r)
    case Finished(_, Unrecorded) => ThroughFindings(d)
    case _ => []
  }

  function EventOf(e: Entry): Event { e.event }

  function ReceiptsOf(e: Entry): seq<string> { e.receipts }

  ghost predicate Receipted(setup: Setup, trail: seq<Entry>, proofs: seq<string>) {
    && proofs == Flatten(Map(ReceiptsOf, trail))
    && forall e :: e in trail ==> |e.receipts| == setup.recorders
  }

  /** The result that is about to be settled, or was settled, carries the receipts so far. */
  ghost predicate ResultReceipted(m: Run) {
    match m.phase
    case Recording(_, _, Settle(r)) => r.proofs == m.proofs && |ClosingEvents(r)| == 1
    case Finished(r, ending) => !ending.Replayed? ==> r.proofs == m.proofs
    case _ => true
  }

  ghost predicate Written(m: Run) {
    match m.phase
    case Raised => true
    case Recording(event, _, next) => Map(EventOf, m.trail) + [event] == EventsAt(m.docket, next)
    case _ => Map(EventOf, m.trail) == EventsAt(m.docket, m.phase)
  }

  ghost predicate Tracked(setup: Setup, m: Run) {
    Receipted(setup, m.trail, m.proofs) && ResultReceipted(m) && Written(m)
  }

  // ----- Every step keeps the trail -----

  lemma BeginTracked(setup: Setup, evidence: seq<Envelope>, scope: Scope)
    ensures Tracked(setup, Begin(setup, evidence, scope))
  {
  }

  lemma MapSnoc<T, U>(f: T -> U, xs: seq<T>, x: T)
    ensures Map(f, xs + [x]) == Map(f, xs) + [f(x)]
  {
  }

  lemma FirstSnoc<T>(xs: seq<T>, n: nat)
    requires n < |xs|
    ensures First(xs, n + 1) == First(xs, n) + [xs[n]]
  {
  }

  /** Completing a proof write appends its event and its receipts. */
  lemma WriteTracked(setup: Setup, m: Run, event: Event, receipts: seq<string>, next: Phase)
    requires m.phase == Recording(event, receipts, next) && Tracked(setup, m) && |receipts| == setup.recorders
    requires Resumes(next)
    ensures Tracked(setup, m.(trail := m.trail + [Entry(event, receipts)], proofs := m.proofs + receipts, phase := next))
  {
    hide EventsAt;
    MapSnoc(EventOf, m.trail, Entry(event, receipts));
    MapSnoc(ReceiptsOf, m.trail, Entry(event, receipts));
    FlattenSnoc(Map(ReceiptsOf, m.trail), receipts);
  }

  lemma RecorderFailureTracked(setup: Setup, cache: Cache, m: Run, event: Event, receipts: seq<string>, next: Phase, x: string)
    requires m.phase == Recording(event, receipts, next) && Tracked(setup, m)
    ensures Tracked(setup, RecorderFailed(cache, m, next, x).run)
  {
    hide ClosingEvents, ThroughFindings, Put, Receipted, UnrecordedReason, RejectionEvent, ThroughCause;
    if next.Settle? {
      var written, closing := Map(EventOf, m.trail), ClosingEvents(next.result);
      assert written + [event] == ThroughFindings(m.docket) + closing;
      assert written == (written + [event])[..|written|];
      assert ThroughFindings(m.docket) == (ThroughFindings(m.docket) + closing)[..|written|];
    }
  }

  lemma RecordingTracked(setup: Setup, cache: Cache, m: Run, a: Input)
    requires m.phase.Recording? && Tracked(setup, m) && Holds(setup, m)
    ensures Tracked(setup, RecordingStep(setup, cache, m, a).run)
  {
    hide EventsAt, ClosingEvents, HoldsAt;
    var Recording(event, receipts, next) := m.phase;
    if |receipts| >= setup.recorders {
      WriteTracked(setup, m, event, receipts, next);
    } else if a.RecorderSays? && a.written.Raise? {
      RecorderFailureTracked(setup, cache, m, event, receipts, next, a.written.exception);
    }
  }

  lemma OneMoreAccepted(d: Docket, i: nat)
    requires i < |d.evidence|
    ensures ThroughEvidence(d, i) + [EvidenceAccepted(d.evidence[i])] == ThroughEvidence(d, i + 1)
  {
    FirstSnoc(d.evidence, i);
    MapSnoc(AcceptedEvent, First(d.evidence, i), d.evidence[i]);
  }

  lemma AllAccepted(d: Docket, i: nat)
    requires i >= |d.evidence| && d.policies == []
    ensures ThroughEvidence(d, i) == ThroughPolicies(d)
  {
    assert First(d.evidence, i) == First(d.evidence, |d.evidence|);
  }

  /** A rejection of item i is written before the decision is. */
  lemma RejectedWritten(m: Run, i: nat, cause: Cause, event: Event)
    requires m.phase == Evidence(i) && Written(m)
    requires ThroughCause(m.docket, cause) == ThroughEvidence(m.docket, i) + [event]
    ensures Written(m.(phase := Recording(event, [], Reject(cause))))
  {
    hide Map, ThroughEvidence, ThroughCause, ThroughFindings, ThroughObjective, ThroughConstraints;
    hide ThroughPolicies, First, ScopeReason, StaleReason, CauseReasons, ClosingEvents, RejectionEvent;
  }

  lemma EvidenceWritten(m: Run, i: nat)
    requires m.phase == Evidence(i) && Written(m) && m.docket.policies == []
    ensures Written(EvidenceStep(m, i))
  {
    hide FreshAt, ThroughEvidence, ThroughPolicies, Written, ScopeReason, StaleReason;
    var d := m.docket;
    if i >= |d.evidence| {
      AllAccepted(d, i);
      AcceptedWritten(m, i);
    } else if d.evidence[i].scope != d.scope {
      RejectedWritten(m, i, Foreign(i), EvidenceRejected(ScopeReason(), d.evidence[i].metadata.id));
    } else if !FreshAt(d.evidence[i], m.docket.now) {
      RejectedWritten(m, i, Stale(i), EvidenceRejected(StaleReason(d.evidence[i]), d.evidence[i].metadata.id));
    } else {
      AcceptedWritten(m, i);
    }
  }

  lemma AcceptedWritten(m: Run, i: nat)
    requires m.phase == Evidence(i) && Written(m)
    ensures i < |m.docket.evidence| ==> Written(m.(phase := Recording(EvidenceAccepted(m.docket.evidence[i]), [], Evidence(i + 1))))
    ensures ThroughEvidence(m.docket, i) == ThroughPolicies(m.docket) ==> Written(m.(phase := Policy(0)))
  {
    hide Map, ThroughEvidence, ThroughPolicies, ThroughFindings, ThroughObjective, ThroughConstraints, First;
    hide ThroughCause, ScopeReason, StaleReason, CauseReasons, ClosingEvents, RejectionEvent;
    if i < |m.docket.evidence| {
      OneMoreAccepted(m.docket, i);
    }
  }

  lemma NoPoliciesYet(setup: Setup, m: Run)
    requires m.phase.Evidence? && Holds(setup, m)
    ensures m.docket.policies == []
  {
    hide Opened, Admitted;
  }

  lemma EvidenceTracked(setup: Setup, m: Run, i: nat)
    requires m.phase == Evidence(i) && Tracked(setup, m) && Holds(setup, m)
    ensures Tracked(setup, EvidenceStep(m, i))
  {
    hide Holds, Receipted, Written, ScopeReason, StaleReason, FreshAt;
    NoPoliciesYet(setup, m);
    EvidenceWritten(m, i);
  }

  lemma PolicyWritten(m: Run, r: PolicyResult, i: nat)
    requires m.phase == Policy(i) && Written(m)
    ensures Written(m.(docket := m.docket.(policies := m.docket.policies + [r]), phase := Recording(PolicyEvaluated(r), [], Policy(i + 1))))
  {
    hide Map, EventOf, ThroughEvidence, ThroughConstraints, ThroughObjective, ThroughFindings, ThroughCause;
    hide ClosingEvents, RejectionEvent;
    MapSnoc(PolicyEvent, m.docket.policies, r);
    Append(ThroughEvidence(m.docket, |m.docket.evidence|), Map(PolicyEvent, m.docket.policies), PolicyEvent(r));
    SameEvidence(m.docket, m.docket.(policies := m.docket.policies + [r]), |m.docket.evidence|);
  }

  /** What was written for the evidence does not depend on what came later. */
  lemma SameEvidence(d: Docket, e: Docket, n: nat)
    requires d.evidence == e.evidence
    ensures ThroughEvidence(d, n) == ThroughEvidence(e, n)
  {
  }

  lemma PolicyTracked(setup: Setup, m: Run, i: nat, a: Input)
    requires m.phase == Policy(i) && Tracked(setup, m)
    ensures Tracked(setup, PolicyStep(setup, m, i, a))
  {
    hide Map, EventOf, Receipted, ThroughPolicies, ThroughConstraints, ThroughObjective, ThroughFindings;
    hide ClosingEvents, RejectionEvent, ThroughEvidence, AllAllowed, Distinct, Known, Inside, ScopeReason;
    hide StaleReason;
    if a.PolicySays? && a.policy.Ok? {
      PolicyWritten(m, a.policy.value, i);
    }
  }

  lemma Append<T>(a: seq<T>, b: seq<T>, x: T)
    ensures (a + b) + [x] == a + (b + [x])
  {
  }

  /** What was written up to the policies does not depend on what came later. */
  lemma SamePolicies(d: Docket, e: Docket)
    requires d.evidence == e.evidence && d.policies == e.policies
    ensures ThroughPolicies(d) == ThroughPolicies(e)
  {
  }

  /** The constraints are gathered before any of them is recorded. */
  lemma GatheredTracked(setup: Setup, m: Run, cs: seq<Constraint>, i: nat)
    requires m.phase == Classify(i) && Tracked(setup, m)
    ensures Tracked(setup, m.(docket := m.docket.(constraints := cs), phase := Classify(i + 1)))
  {
    hide Map, EventOf, Receipted, ThroughEvidence, ThroughPolicies, ThroughConstraints, ThroughObjective;
    hide ThroughFindings, ThroughCause, ClosingEvents, RejectionEvent;
    SamePolicies(m.docket, m.docket.(constraints := cs));
  }

  lemma NothingRecordedYet(d: Docket, cs: seq<Constraint>)
    ensures ThroughConstraints(d.(constraints := cs), 0) == ThroughPolicies(d)
  {
    hide ThroughPolicies;
    SamePolicies(d, d.(constraints := cs));
    assert Map(ConstraintEvent, First(cs, 0)) == [];
  }

  lemma SortedTracked(setup: Setup, m: Run, cs: seq<Constraint>, i: nat)
    requires m.phase == Classify(i) && Tracked(setup, m)
    ensures Tracked(setup, m.(docket := m.docket.(constraints := cs), phase := Classified(0)))
  {
    hide Map, EventOf, Receipted, ThroughEvidence, ThroughPolicies, ThroughConstraints, ThroughObjective;
    hide ThroughFindings, ThroughCause, ClosingEvents, RejectionEvent;
    NothingRecordedYet(m.docket, cs);
  }

  lemma UnconstrainedTracked(setup: Setup, m: Run, i: nat)
    requires m.phase == Classify(i) && Tracked(setup, m)
    ensures Tracked(setup, m.(phase := KernelMachine.Reject(NoConstraints)))
  {
    hide Map, EventOf, Receipted, ThroughEvidence, ThroughPolicies, ThroughConstraints, ThroughObjective;
    hide ThroughFindings, ClosingEvents, RejectionEvent, ScopeReason, StaleReason;
  }

  lemma ClassifyTracked(setup: Setup, m: Run, i: nat, a: Input)
    requires m.phase == Classify(i) && Tracked(setup, m)
    ensures Tracked(setup, ClassifyStep(setup, m, i, a))
  {
    hide Tracked, SortConstraints, ConstraintsInside, Distinct, Known, ConstraintId, Map;
    GivenUp(setup, m);
    UnconstrainedTracked(setup, m, i);
    if a.ClassifierSays? && a.constraints.Ok? {
      GatheredTracked(setup, m, m.docket.constraints + a.constraints.value, i);
    }
    SortedTracked(setup, m, SortConstraints(m.docket.constraints), i);
  }

  lemma OneMoreConstraint(d: Docket, i: nat)
    requires i < |d.constraints|
    ensures ThroughConstraints(d, i) + [ConstraintClassified(d.constraints[i])] == ThroughConstraints(d, i + 1)
  {
    hide ThroughPolicies;
    FirstSnoc(d.constraints, i);
    MapSnoc(ConstraintEvent, First(d.constraints, i), d.constraints[i]);
    Append(ThroughPolicies(d), Map(ConstraintEvent, First(d.constraints, i)), ConstraintEvent(d.constraints[i]));
  }

  lemma AllConstraints(d: Docket, i: nat)
    requires i >= |d.constraints|
    ensures ThroughConstraints(d, i) == ThroughConstraints(d, |d.constraints|)
  {
    hide ThroughPolicies;
    assert First(d.constraints, i) == First(d.constraints, |d.constraints|);
  }

  lemma ClassifiedTracked(setup: Setup, m: Run, i: nat)
    requires m.phase == Classified(i) && Tracked(setup, m)
    ensures Tracked(setup, ClassifiedStep(m, i))
  {
    hide Map, EventOf, Receipted, ThroughEvidence, ThroughPolicies, ThroughConstraints, ThroughObjective;
    hide ThroughFindings, ThroughCause, ClosingEvents, RejectionEvent;
    if i < |m.docket.constraints| {
      OneMoreConstraint(m.docket, i);
    } else {
      AllConstraints(m.docket, i);
    }
  }

  lemma InterpretTracked(setup: Setup, m: Run, a: Input)
    requires m.phase.Interpret? && Tracked(setup, m)
    ensures Tracked(setup, InterpretStep(m, a))
  {
    hide Receipted, RejectionEvent, ThroughCause;
  }

  lemma PlanningTracked(setup: Setup, m: Run, a: Input)
    requires m.phase.Planning? && Tracked(setup, m) && Holds(setup, m)
    ensures Tracked(setup, PlanningStep(setup, m, a))
  {
    hide PlanFits, Receipted, Resumes, AllAdmitted, Blank, BuildPackage, CauseHolds, CauseReasons, Coherent;
    hide ConstraintsKept, ConstraintsReady, EventOf, Map, ObjectiveReady, Opened, PoliciesKept, PoliciesPassed;
    hide ScopeReason, StaleReason;
  }

  lemma FindingWritten(m: Run, f: Finding, i: nat)
    requires m.phase == Challenge(i) && Written(m)
    ensures Written(m.(docket := m.docket.(findings := m.docket.findings + [f]), phase := Recording(FalsificationCompleted(f), [], Challenge(i + 1))))
  {
    hide Map, EventOf, ThroughObjective, ThroughCause, ClosingEvents, RejectionEvent;
    MapSnoc(FindingEvent, m.docket.findings, f);
    Append(ThroughObjective(m.docket), Map(FindingEvent, m.docket.findings), FindingEvent(f));
    SameObjective(m.docket, m.docket.(findings := m.docket.findings + [f]));
  }

  /** What was written up to the objective does not depend on the findings. */
  lemma SameObjective(d: Docket, e: Docket)
    requires e == d.(findings := e.findings)
    ensures ThroughObjective(d) == ThroughObjective(e)
  {
  }

  lemma FindingTracked(setup: Setup, m: Run, f: Finding, i: nat)
    requires m.phase == Challenge(i) && Tracked(setup, m)
    ensures Tracked(setup, m.(docket := m.docket.(findings := m.docket.findings + [f]),
                              phase := Recording(FalsificationCompleted(f), [], Challenge(i + 1))))
  {
    hide Written, Receipted;
    FindingWritten(m, f, i);
  }

  lemma FalsifiedTracked(setup: Setup, m: Run, i: nat)
    requires m.phase == Challenge(i) && Tracked(setup, m)
    ensures Tracked(setup, m.(phase := KernelMachine.Reject(Falsified)))
  {
    hide Map, EventOf, Receipted, ThroughFindings, ThroughObjective, ThroughEvidence, ThroughPolicies;
    hide ThroughConstraints, ClosingEvents, RejectionEvent, ScopeReason, StaleReason;
  }

  lemma SurvivedTracked(setup: Setup, m: Run, i: nat, package: Package)
    requires m.phase == Challenge(i) && Tracked(setup, m)
    ensures Tracked(setup, m.(signerCalled := true, phase := Signing(package)))
  {
    hide Map, EventOf, Receipted, ThroughFindings, ThroughObjective, ThroughEvidence, ThroughPolicies;
    hide ThroughConstraints, ThroughCause, ClosingEvents, RejectionEvent;
  }

  lemma ChallengeTracked(setup: Setup, m: Run, i: nat, a: Input)
    requires m.phase == Challenge(i) && Tracked(setup, m)
    ensures Tracked(setup, ChallengeStep(setup, m, i, a))
  {
    hide Tracked, BuildPackage, Choice, Coherent, FindingFits, Planned, RequiredChecks, AllSurvive;
    if a.CheckSays? && a.finding.Ok? {
      FindingTracked(setup, m, a.finding.value, i);
    }
    if Planned(setup, m.docket) {
      SurvivedTracked(setup, m, i, BuildPackage(setup, m.docket));
    }
    FalsifiedTracked(setup, m, i);
    GivenUp(setup, m);
  }

  /** A run that raises has nothing more to account for. */
  lemma GivenUp(setup: Setup, m: Run)
    requires Tracked(setup, m)
    ensures Tracked(setup, m.(phase := Raised))
  {
    hide Map, EventOf, Receipted, EventsAt;
  }

  lemma LookupTracked(setup: Setup, cache: Cache, m: Run)
    requires m.phase.Lookup? && Tracked(setup, m)
    ensures Tracked(setup, LookupStep(cache, m))
  {
    hide Map, EventOf, ReceiptsOf, Receipted, ThroughEvidence, ThroughPolicies, ThroughConstraints;
    hide ThroughObjective, ThroughFindings, ThroughCause, RejectionEvent, ClosingEvents;
  }

  lemma ClockTracked(setup: Setup, m: Run, reading: Answer<Reading>)
    requires m.phase.ReadClock? && Tracked(setup, m)
    ensures Tracked(setup, ClockStep(m, reading))
  {
    hide Receipted, ThroughPolicies, ThroughConstraints, ThroughObjective, OneCorrelation, Distinct, IdentityOf;
    hide EventOf, ThroughFindings, ThroughCause, RejectionEvent, ClosingEvents;
  }

  lemma SigningTracked(setup: Setup, m: Run, package: Package, a: Input)
    requires m.phase == Signing(package) && Tracked(setup, m)
    ensures Tracked(setup, SigningStep(setup, m, package, a))
  {
    hide Map, EventOf, Receipted, ThroughEvidence, ThroughPolicies, ThroughConstraints, ThroughObjective;
    hide ThroughFindings, ThroughCause, RejectionEvent, ClosingEvents, Sealed, Sized;
  }

  lemma RejectTracked(setup: Setup, m: Run, cause: Cause)
    requires m.phase == Reject(cause) && Tracked(setup, m)
    ensures Tracked(setup, RejectStep(m, cause))
  {
    hide Map, EventOf, Receipted, ThroughEvidence, ThroughPolicies, ThroughConstraints, ThroughObjective;
    hide ThroughFindings, ThroughCause, ClosingEvents, CauseReasons, CauseStatus;
  }

  lemma QuietTracked(setup: Setup, cache: Cache, m: Run, a: Input)
    requires Tracked(setup, m) && Holds(setup, m)
    requires !m.phase.Recording? && !m.phase.Delivery? && !m.phase.Settle? && !m.phase.CacheRejection?
    ensures Tracked(setup, QuietStep(setup, cache, m, a))
  {
    hide ChallengeStep, Holds, Tracked, RejectStep, ScopeReason;
    match m.phase
    case Evidence(i) => EvidenceTracked(setup, m, i);
    case Policy(i) => PolicyTracked(setup, m, i, a);
    case Classify(i) => ClassifyTracked(setup, m, i, a);
    case Classified(i) => ClassifiedTracked(setup, m, i);
    case Interpret => InterpretTracked(setup, m, a);
    case Planning => PlanningTracked(setup, m, a);
    case Challenge(i) => ChallengeTracked(setup, m, i, a);
    case Lookup => LookupTracked(setup, cache, m);
    case ReadClock =>
      if a.ClockSays? {
        ClockTracked(setup, m, a.reading);
      }
    case Signing(package) => SigningTracked(setup, m, package, a);
    case Reject(cause) => RejectTracked(setup, m, cause);
    case _ =>
  }

  /** The event of a delivery is the closing event of its result. */
  lemma DeliveryCloses(m: Run, signed: Signed, answer: Answer<ProposalReceipt>)
    ensures var r := DeliveryResult(m, signed, answer);
      ClosingEvents(r) == [DeliveryEvent(signed, answer)] && r.proofs == m.proofs
  {
    hide MismatchReason, UnknownReason, Correlation;
  }

  lemma DeliveryTracked(setup: Setup, cache: Cache, m: Run, signed: Signed, a: Input)
    requires m.phase == Delivery(signed) && Tracked(setup, m)
    ensures Tracked(setup, DeliveryStep(cache, m, signed, a).run)
  {
    hide Receipted, EventOf, RejectionEvent, ThroughCause, ThroughFindings, ClosingEvents, DeliveryResult;
    hide DeliveryEvent, Put;
    if a.SinkSays? {
      DeliveryCloses(m, signed, a.receipt);
    }
  }

  lemma SettleTracked(setup: Setup, cache: Cache, m: Run, result: KernelResult)
    requires m.phase == Settle(result) && Tracked(setup, m)
    ensures Tracked(setup, SettleStep(cache, m, result).run)
  {
    hide Map, EventOf, Receipted, ThroughEvidence, ThroughPolicies, ThroughConstraints, ThroughObjective;
    hide ThroughFindings, ThroughCause, RejectionEvent;
    assert ClosingEvents(result.(proofs := m.proofs)) == ClosingEvents(result);
  }

  lemma CacheRejectionTracked(setup: Setup, cache: Cache, m: Run, cause: Cause)
    requires m.phase == CacheRejection(cause) && Tracked(setup, m)
    ensures Tracked(setup, CacheRejectionStep(cache, m, cause).run)
  {
    hide ThroughCause, CauseReasons;
  }

  /** Whatever the ports answer, the trail holds what the docket calls for at every point. */
  lemma StepTracked(setup: Setup, cache: Cache, m: Run, a: Input)
    requires Tracked(setup, m) && Holds(setup, m)
    ensures Tracked(setup, Step(setup, cache, m, a).run)
  {
    hide DeliveryStep, Holds, QuietStep, Tracked, Rejection;
    match m.phase
    case Recording(_, _, _) => RecordingTracked(setup, cache, m, a);
    case Delivery(signed) => DeliveryTracked(setup, cache, m, signed, a);
    case Settle(result) => SettleTracked(setup, cache, m, result);
    case CacheRejection(cause) => CacheRejectionTracked(setup, cache, m, cause);
    case _ => QuietTracked(setup, cache, m, a);
  }

  // ----- What the trail of a finished run is -----

  lemma TrailLength(setup: Setup, trail: seq<Entry>, proofs: seq<string>)
    requires Receipted(setup, trail, proofs)
    ensures |proofs| == setup.recorders * |trail|
  {
    FlattenLength(Map(ReceiptsOf, trail), setup.recorders);
  }

  lemma FindingsTrail(d: Docket)
    requires d.objective.Some?
    ensures ThroughFindings(d)
         == Map(AcceptedEvent, d.evidence) + Map(PolicyEvent, d.policies) + Map(ConstraintEvent, d.constraints)
            + [ObjectiveInterpreted(d.objective.value)] + Map(FindingEvent, d.findings)
  {
    assert First(d.evidence, |d.evidence|) == d.evidence;
    assert First(d.constraints, |d.constraints|) == d.constraints;
  }

  /** A delivered cycle whose final write succeeded wrote every accepted item, every policy
      result, every constraint, the objective, every finding and the closing event, once each
      and in that order; its proof receipts are those of these writes, all of them, in order. */
  lemma DeliveredTrail(setup: Setup, m: Run)
    requires Tracked(setup, m) && Holds(setup, m) && m.phase.Finished? && m.phase.ending.Settled?
    requires m.phase.result.status.Proposed? && m.phase.result.receipt.Some? && m.phase.result.signed.Some?
    ensures var d, r := m.docket, m.phase.result;
      && d.objective.Some?
      && Map(EventOf, m.trail) == Map(AcceptedEvent, d.evidence) + Map(PolicyEvent, d.policies)
           + Map(ConstraintEvent, d.constraints) + [ObjectiveInterpreted(d.objective.value)]
           + Map(FindingEvent, d.findings) + [DecisionProposed(r.signed.value, r.receipt.value)]
      && r.proofs == Flatten(Map(ReceiptsOf, m.trail))
      && |r.proofs| == setup.recorders * (|d.evidence| + |d.policies| + |d.constraints| + |d.findings| + 2)
  {
    hide AcceptedEvent, ConstraintEvent, EventOf, FindingEvent, Flatten, Map, PolicyEvent, ReceiptsOf;
    hide ThroughFindings, Resumes, ThroughObjective, Blank, BuildPackage, CauseHolds, CauseReasons, Coherent;
    hide ConstraintsReady, Correlation, FindingsKept, PoliciesKept, ThroughConstraints, PlanFits, ThroughCause;
    assert m.docket.objective.Some?;
    FindingsTrail(m.docket);
    TrailLength(setup, m.trail, m.proofs);
    assert |Map(EventOf, m.trail)| == |m.trail|;
  }
}
