/** What a caller of the kernel can rely on, for every input and whatever the ports do:
    the invariants of the single steps, carried over to complete calls. */
module Guarantees {
  import opened Basics
  import opened Order
  import opened Contracts
  import opened Signature
  import opened Cycle
  import opened KernelMachine
  import opened OneWayDoor
  import opened Gates
  import opened Trail
  import opened Runs
  import opened Lockstep

  // ----- The invariants hold at the end of every run -----

  /** The run works on the same evidence, scope and key as before. */
  ghost predicate SameCase(m: Run, m': Run) {
    m'.docket.evidence == m.docket.evidence && m'.docket.scope == m.docket.scope && m'.docket.key == m.docket.key
  }

  predicate BeforeConstraints(phase: Phase) {
    phase.Lookup? || phase.ReadClock? || phase.Evidence? || phase.Policy?
  }

  lemma EarlySameCase(setup: Setup, cache: Cache, m: Run, a: Input)
    requires BeforeConstraints(m.phase)
    ensures SameCase(m, QuietStep(setup, cache, m, a))
  {
    hide ClassifyStep, ClassifiedStep, InterpretStep, PlanningStep, ChallengeStep, SigningStep, RejectStep;
    hide AllAllowed, Distinct, FreshAt, IdentityOf, Inside, Known, Map, OneCorrelation, ScopeReason, StaleReason;
  }

  lemma QuietSameCase(setup: Setup, cache: Cache, m: Run, a: Input)
    ensures SameCase(m, QuietStep(setup, cache, m, a))
  {
    hide LookupStep, ClockStep, EvidenceStep, PolicyStep, AllSurvive, BuildPackage, CauseReasons, CauseStatus;
    hide Choice, Coherent, ConstraintId, ConstraintsInside, Distinct, FindingFits, Inside, Known, Map;
    hide ObjectiveFits, PlanFits, Planned, RequiredChecks, Sealed, Sized, SortConstraints;
    if BeforeConstraints(m.phase) {
      EarlySameCase(setup, cache, m, a);
    }
  }

  lemma StepSameCase(setup: Setup, cache: Cache, m: Run, a: Input)
    ensures SameCase(m, Step(setup, cache, m, a).run)
  {
    hide QuietStep, DeliveryEvent, DeliveryResult, Put, Rejection, UnrecordedReason;
    QuietSameCase(setup, cache, m, a);
  }

  ghost predicate Sound(setup: Setup, before: Cache, now: Cache, m: Run) {
    Done(before, now, m) && Holds(setup, m) && Tracked(setup, m)
  }

  lemma StepSound(setup: Setup, before: Cache, now: Cache, m: Run, a: Input)
    requires WellTyped(a) && Sound(setup, before, now, m)
    ensures var p := Step(setup, now, m, a); Sound(setup, before, p.cache, p.run)
  {
    hide Done, Holds, Tracked, Step, WellTyped;
    StepDone(setup, before, now, m, a);
    StepHolds(setup, now, m, a);
    StepTracked(setup, now, m, a);
  }

  lemma {:induction false} DriveSound(setup: Setup, ports: Ports, before: Cache, now: Cache, m: Run, calls: nat)
    requires Lawful(ports) && Sound(setup, before, now, m) && Flat(m.phase)
    ensures var o := Drive(setup, ports, now, m, calls);
      Terminal(o.run.phase) && Sound(setup, before, o.cache, o.run) && SameCase(m, o.run)
    decreases Stage(Target(m.phase)), Rounds(setup, m.docket, Target(m.phase)), Writes(setup, m.phase)
  {
    hide Sound, Step, Ask, WellTyped, Lawful, Rounds, Stage, Writes, Resumes, Terminal;
    if !Terminal(m.phase) {
      var a := Ask(setup, ports, calls, m);
      AskWellTyped(setup, ports, calls, m);
      StepSound(setup, before, now, m, a);
      StepSameCase(setup, now, m, a);
      EveryStepDescends(setup, ports, now, calls, m);
      var p := Step(setup, now, m, a);
      DriveSound(setup, ports, before, p.cache, p.run, Calls(calls, a));
    }
  }

  lemma CallSound(setup: Setup, ports: Ports, cache: Cache, calls: nat, evidence: seq<Envelope>, scope: Scope)
    requires Lawful(ports)
    ensures var o := Call(setup, ports, cache, calls, evidence, scope);
      && Terminal(o.run.phase) && Sound(setup, cache, o.cache, o.run)
      && o.run.docket.evidence == Arrange(setup.hash, evidence) && o.run.docket.scope == scope
      && o.run.docket.key == CycleKey(setup.hash, evidence, scope)
  {
    hide Done, Holds, Tracked, Drive, Lawful, Terminal, Arrange, CycleKey;
    BeginDone(setup, cache, evidence, scope);
    BeginHolds(setup, evidence, scope);
    BeginTracked(setup, evidence, scope);
    ArrangedKey(setup.hash, evidence, scope);
    DriveSound(setup, ports, cache, cache, Begin(setup, evidence, scope), calls);
  }

  // ----- Delivery is a one-way door -----

  /** If the call raises, nothing was offered and the cache is as it was. Once something was
      offered, the call returns, and the cache holds its result under the cycle's key: proposed
      exactly if the sink's receipt names the package, of unknown delivery otherwise, and without
      a reason exactly if it is proposed and the final proof write succeeded. A cycle that ends
      without a proposal never reached the signer, let alone the sink. */
  ghost predicate OneWay(key: string, before: Cache, now: Cache, m: Run) {
    && (m.phase.Raised? ==> now == before && m.offered == [])
    && (m.offered != [] ==>
          && m.phase.Finished? && key !in before && now == before[key := m.phase.result]
          && |m.offered| == 1 && m.phase.result.signed == Some(m.offered[0])
          && (m.phase.result.status.Proposed? || m.phase.result.status.DeliveryUnknown?)
          && (m.phase.result.status.Proposed? <==>
                m.phase.result.receipt.Some? && m.phase.result.receipt.value.packageDigest == m.offered[0].digest)
          && (m.phase.result.reasons == [] <==> m.phase.result.status.Proposed? && m.phase.ending.Settled?))
    && (m.phase.Finished? && (m.phase.result.status.Declined? || m.phase.result.status.NoCandidate?) ==>
          m.offered == [] && !m.signerCalled)
  }

  lemma DeliveryIsAOneWayDoor(setup: Setup, ports: Ports, cache: Cache, calls: nat, evidence: seq<Envelope>, scope: Scope)
    requires Lawful(ports)
    ensures var o := Call(setup, ports, cache, calls, evidence, scope);
      OneWay(CycleKey(setup.hash, evidence, scope), cache, o.cache, o.run)
  {
    hide Call, Lawful, Holds, Tracked, CycleKey;
    CallSound(setup, ports, cache, calls, evidence, scope);
  }

  // ----- Replay -----

  /** Results that are in the cache stay there unchanged. */
  ghost predicate Extends(a: Cache, b: Cache) {
    forall key :: key in a ==> key in b && b[key] == a[key]
  }

  ghost predicate OwnEntryOnly(key: string, before: Cache, now: Cache, m: Run) {
    && Extends(before, now) && now.Keys <= before.Keys + {key}
    && (m.phase.Finished? ==> key in now && now[key] == m.phase.result.(replayed := now[key].replayed))
    && (key !in before && key in now ==> m.phase.Finished? && now[key] == m.phase.result && !now[key].replayed)
  }

  /** A call changes at most the entry of its own cycle, and only if there was none. */
  lemma FinishedCyclesAreFinal(setup: Setup, ports: Ports, cache: Cache, calls: nat, evidence: seq<Envelope>, scope: Scope)
    requires Lawful(ports)
    ensures var o := Call(setup, ports, cache, calls, evidence, scope);
      OwnEntryOnly(CycleKey(setup.hash, evidence, scope), cache, o.cache, o.run)
  {
    hide Call, Lawful, Holds, Tracked, CycleKey;
    CallSound(setup, ports, cache, calls, evidence, scope);
  }

  /** A call whose cycle is cached returns the cached result, marked as replayed, and asks no port. */
  lemma CachedCyclesReplay(setup: Setup, ports: Ports, cache: Cache, calls: nat, evidence: seq<Envelope>, scope: Scope)
    requires CycleKey(setup.hash, evidence, scope) in cache && evidence != []
    ensures var o := Call(setup, ports, cache, calls, evidence, scope);
      && o.cache == cache && o.calls == calls && o.run.offered == []
      && o.run.phase == Finished(cache[CycleKey(setup.hash, evidence, scope)].(replayed := true), Replayed)
  {
    hide CycleKey, Arrange, Drive, Holds, Lawful;
    var m := Begin(setup, evidence, scope);
    ArrangedKey(setup.hash, evidence, scope);
    ArrangedSize(setup, evidence);
    LookupLeads(setup, ports, cache, m, calls);
    NothingFollows(setup, ports, cache, LookupStep(cache, m), calls);
  }

  lemma ArrangedSize(setup: Setup, evidence: seq<Envelope>)
    ensures |Arrange(setup.hash, evidence)| == |evidence|
  {
    assert |multiset(Arrange(setup.hash, evidence))| == |multiset(evidence)|;
  }

  /** A call without evidence raises before it looks anything up. */
  lemma EmptyEvidenceRaises(setup: Setup, ports: Ports, cache: Cache, calls: nat, scope: Scope)
    ensures Call(setup, ports, cache, calls, [], scope).run.phase.Raised?
    ensures Call(setup, ports, cache, calls, [], scope).calls == calls
  {
    hide CycleKey, Arrange, Drive, Holds, Lawful;
    var m := Begin(setup, [], scope);
    ArrangedSize(setup, []);
    LookupLeads(setup, ports, cache, m, calls);
    NothingFollows(setup, ports, cache, LookupStep(cache, m), calls);
  }

  /** Once a call has returned, every later call with the same evidence, in any order, returns
      the same result with only the replay mark set; it asks no port and leaves the cache alone. */
  lemma ReplayAgreesWithTheFirstCall(setup: Setup, ports: Ports, cache: Cache, calls: nat, evidence: seq<Envelope>, scope: Scope,
                                     laterPorts: Ports, later: Cache, laterCalls: nat, again: seq<Envelope>)
    requires Lawful(ports) && multiset(again) == multiset(evidence)
    requires var o := Call(setup, ports, cache, calls, evidence, scope); o.run.phase.Finished? && Extends(o.cache, later)
    ensures var o := Call(setup, ports, cache, calls, evidence, scope);
      var o' := Call(setup, laterPorts, later, laterCalls, again, scope);
      && o'.run.phase == Finished(o.run.phase.result.(replayed := true), Replayed)
      && o'.cache == later && o'.calls == laterCalls && o'.run.offered == []
  {
    hide Call, Lawful, CycleKey;
    FinishedCyclesAreFinal(setup, ports, cache, calls, evidence, scope);
    CycleKeyIgnoresOrder(setup.hash, evidence, again, scope);
    EmptyEvidenceRaises(setup, ports, cache, calls, scope);
    assert again != [] by {
      assert |multiset(again)| == |again|;
    }
    CachedCyclesReplay(setup, laterPorts, later, laterCalls, again, scope);
  }

  /** The order in which a caller lists the evidence changes nothing: the same questions reach
      the ports, and the call has the same outcome. */
  lemma EvidenceOrderIsIrrelevant(setup: Setup, ports: Ports, cache: Cache, calls: nat, a: seq<Envelope>, b: seq<Envelope>, scope: Scope)
    requires CollisionFree(setup.hash, a) && multiset(a) == multiset(b)
    ensures Call(setup, ports, cache, calls, a, scope) == Call(setup, ports, cache, calls, b, scope)
  {
    hide Drive, CycleKey;
    ArrangeIgnoresOrder(setup.hash, a, b);
  }

  // ----- What stands behind a result -----

  lemma ReadyIsAdmitted(setup: Setup, d: Docket)
    requires PackageReady(setup, d)
    ensures AllAdmitted(d) && Challenged(setup, d)
  {
    hide FindingsKept, AllSurvive, PlanFits, ValidPlan, ValidObjective, ObjectiveFits, Sorted, Opened, Admitted;
  }

  lemma AdmittedEvidence(setup: Setup, d: Docket, evidence: seq<Envelope>)
    requires AllAdmitted(d) && d.evidence == Arrange(setup.hash, evidence)
    ensures forall e :: e in evidence ==> e in d.evidence && e.scope == d.scope && FreshAt(e, d.now)
  {
    SortMembers(evidence, ByKey(SortKeys(setup.hash), TupleLe));
    forall e | e in d.evidence ensures e.scope == d.scope && FreshAt(e, d.now) {
      var k :| 0 <= k < |d.evidence| && d.evidence[k] == e;
    }
  }

  /** The package that was offered is coherent, sealed with its own digest and signed under the
      kernel's key; it refers to every envelope and to nothing else, all of it in scope and of one
      correlation, and whenever the package is fresh, so is every envelope. */
  ghost predicate Justified(setup: Setup, evidence: seq<Envelope>, scope: Scope, signed: Signed) {
    var p := signed.package;
    && Coherent(p) && signed.digest == setup.hash.package(p) && signed.keyId == setup.keyId
    && IsSignatureText(signed.signature)
    && p.cycleKey == CycleKey(setup.hash, evidence, scope) && p.scope == scope && p.proposer == setup.proposer
    && multiset(p.evidence) == multiset(Map(References(setup.hash), evidence))
    && 0 < p.expiresAt - p.createdAt <= setup.ttl
    && (forall e :: e in evidence ==> e.scope == scope && e.metadata.correlationId == p.correlationId)
    && (forall e, t :: e in evidence && PackageFreshAt(p, t) ==> FreshAt(e, t))
  }

  lemma SharedCorrelation(d: Docket)
    requires AllAdmitted(d)
    ensures forall e :: e in d.evidence ==> e.metadata.correlationId == Correlation(d)
  {
    hide Admitted, Distinct;
    assert d.evidence[0] in d.evidence;
  }

  lemma ReferencesPermuted(setup: Setup, evidence: seq<Envelope>)
    ensures multiset(Map(References(setup.hash), Arrange(setup.hash, evidence))) == multiset(Map(References(setup.hash), evidence))
  {
    assert multiset(Arrange(setup.hash, evidence)) == multiset(evidence);
    MapPermuted(References(setup.hash), Arrange(setup.hash, evidence), evidence);
  }

  lemma OffersAreJustified(setup: Setup, ports: Ports, cache: Cache, calls: nat, evidence: seq<Envelope>, scope: Scope)
    requires ValidSetup(setup) && Lawful(ports)
    ensures forall signed :: signed in Call(setup, ports, cache, calls, evidence, scope).run.offered ==>
      Justified(setup, evidence, scope, signed)
  {
    hide Call, Lawful, Tracked, CycleKey, Coherent, FreshAt, PackageFreshAt, Arrange, PackageReady, Challenged;
    hide AllAdmitted, CauseHolds;
    CallSound(setup, ports, cache, calls, evidence, scope);
    var m := Call(setup, ports, cache, calls, evidence, scope).run;
    if m.offered != [] {
      assert Proposable(setup, m.docket, m.offered[0]);
      ReadyIsAdmitted(setup, m.docket);
      PackageWindow(setup, m.docket);
      AdmittedEvidence(setup, m.docket, evidence);
      SharedCorrelation(m.docket);
      ReferencesPermuted(setup, evidence);
    }
  }

  /** The run is about the caller's evidence in its canonical order, the caller's scope, and the
      key of both. */
  ghost predicate About(setup: Setup, evidence: seq<Envelope>, scope: Scope, d: Docket) {
    d.evidence == Arrange(setup.hash, evidence) && d.scope == scope && d.key == CycleKey(setup.hash, evidence, scope)
  }

  /** A cycle that ends without a proposal names its true cause, and every gate before that
      cause was passed; its trail is what was written up to there and the rejection event, and
      its receipts are those of the trail. */
  lemma RejectionsAreJustified(setup: Setup, ports: Ports, cache: Cache, calls: nat, evidence: seq<Envelope>, scope: Scope)
    requires Lawful(ports)
    ensures var m := Call(setup, ports, cache, calls, evidence, scope).run;
      About(setup, evidence, scope, m.docket) && (m.phase.Finished? && m.phase.ending.Closed? ==>
        var cause, r := m.phase.ending.cause, m.phase.result;
        && CauseHolds(setup, m.docket, cause)
        && r.status == CauseStatus(cause) && r.reasons == CauseReasons(m.docket, cause)
        && Map(EventOf, m.trail) == ThroughCause(m.docket, cause) + [RejectionEvent(m.docket, cause)]
        && r.proofs == Flatten(Map(ReceiptsOf, m.trail)) && |r.proofs| == setup.recorders * |m.trail|)
  {
    hide Call, Lawful, CycleKey, Arrange, CauseHolds, CauseReasons, ThroughCause, RejectionEvent, CauseStatus;
    hide Flatten;
    CallSound(setup, ports, cache, calls, evidence, scope);
    var m := Call(setup, ports, cache, calls, evidence, scope).run;
    TrailLength(setup, m.trail, m.proofs);
  }

  /** Once every required check survived, the package is built and goes to the signer:
      construction does not fail. */
  lemma ConstructionNeverFails(setup: Setup, m: Run, i: nat, a: Input)
    requires ValidSetup(setup) && Holds(setup, m) && m.phase == Challenge(i)
    requires CollisionFree(setup.hash, m.docket.evidence)
    requires Planned(setup, m.docket) && i == |RequiredChecks(setup, m.docket)| && AllSurvive(m.docket.findings)
    ensures ChallengeStep(setup, m, i, a).phase == Signing(BuildPackage(setup, m.docket))
  {
    hide CauseReasons;
    GatesImplyCoherence(setup, m.docket);
  }

  /** The point at which the run raises because the package validator refuses its package. */
  ghost predicate ValidatorRefuses(setup: Setup, m: Run) {
    && m.phase.Challenge? && Planned(setup, m.docket) && m.phase.i >= |RequiredChecks(setup, m.docket)|
    && AllSurvive(m.docket.findings) && !Coherent(BuildPackage(setup, m.docket))
  }

  /** From here to the end the run comes to no such point. */
  ghost predicate NeverRefused(setup: Setup, ports: Ports, cache: Cache, m: Run, calls: nat)
    requires Flat(m.phase)
    decreases Stage(Target(m.phase)), Rounds(setup, m.docket, Target(m.phase)), Writes(setup, m.phase)
  {
    && !ValidatorRefuses(setup, m)
    && (Terminal(m.phase)
        || (EveryStepDescends(setup, ports, cache, calls, m);
            var a := Ask(setup, ports, calls, m);
            var p := Step(setup, cache, m, a);
            NeverRefused(setup, ports, p.cache, p.run, Calls(calls, a))))
  }

  lemma NotRefusedHere(setup: Setup, m: Run)
    requires ValidSetup(setup) && Holds(setup, m) && CollisionFree(setup.hash, m.docket.evidence)
    ensures !ValidatorRefuses(setup, m)
  {
    hide Coherent, BuildPackage, PlanReady, FindingFits, Planned, RequiredChecks, AllSurvive, CollisionFree;
    if ValidatorRefuses(setup, m) {
      GatesImplyCoherence(setup, m.docket);
    }
  }

  lemma {:induction false} DriveNeverRefused(setup: Setup, ports: Ports, before: Cache, now: Cache, m: Run, calls: nat)
    requires ValidSetup(setup) && Lawful(ports) && Sound(setup, before, now, m) && Flat(m.phase)
    requires CollisionFree(setup.hash, m.docket.evidence)
    ensures NeverRefused(setup, ports, now, m, calls)
    decreases Stage(Target(m.phase)), Rounds(setup, m.docket, Target(m.phase)), Writes(setup, m.phase)
  {
    hide Done, Holds, Tracked, Step, Ask, WellTyped, Lawful, Rounds, Stage, Writes, Resumes, Terminal;
    hide ValidSetup, CollisionFree, ValidatorRefuses;
    NotRefusedHere(setup, m);
    if !Terminal(m.phase) {
      var a := Ask(setup, ports, calls, m);
      AskWellTyped(setup, ports, calls, m);
      StepSound(setup, before, now, m, a);
      StepSameCase(setup, now, m, a);
      EveryStepDescends(setup, ports, now, calls, m);
      var p := Step(setup, now, m, a);
      DriveNeverRefused(setup, ports, before, p.cache, p.run, Calls(calls, a));
    }
  }

  /** Over a whole call, whatever the ports answer, the package validator never refuses the
      package: a call does not raise for that reason. */
  lemma NoCallIsRefused(setup: Setup, ports: Ports, cache: Cache, calls: nat, evidence: seq<Envelope>, scope: Scope)
    requires ValidSetup(setup) && Lawful(ports) && CollisionFree(setup.hash, evidence)
    ensures NeverRefused(setup, ports, cache, Begin(setup, evidence, scope), calls)
  {
    hide Done, Holds, Tracked, NeverRefused, Lawful, ValidSetup, CycleKey;
    BeginDone(setup, cache, evidence, scope);
    BeginHolds(setup, evidence, scope);
    BeginTracked(setup, evidence, scope);
    SortMembers(evidence, ByKey(SortKeys(setup.hash), TupleLe));
    DriveNeverRefused(setup, ports, cache, cache, Begin(setup, evidence, scope), calls);
  }

  // ----- Quiet recorders -----

  ghost predicate RecordersNeverRaise(ports: Ports) {
    forall t, i, e, c :: ports.record(t, i, e, c).Ok?
  }

  predicate FullyRecorded(phase: Phase) {
    phase.Finished? ==> !phase.ending.Unrecorded?
  }

  lemma QuietFullyRecorded(setup: Setup, cache: Cache, m: Run, a: Input)
    requires FullyRecorded(m.phase)
    ensures FullyRecorded(QuietStep(setup, cache, m, a).phase)
  {
    hide AllAllowed, AllSurvive, BuildPackage, CauseReasons, CauseStatus, CheckId, Choice, Coherent;
    hide ConstraintId, ConstraintsInside, Distinct, FindingFits, FreshAt, IdentityOf, Inside, Known, Map;
    hide ObjectiveFits, OneCorrelation, PlanFits, Planned, RequiredChecks, ScopeReason, Sealed, Sized;
    hide SortConstraints, StaleReason;
  }

  lemma StepFullyRecorded(setup: Setup, cache: Cache, m: Run, a: Input)
    requires Flat(m.phase) && FullyRecorded(m.phase) && (a.RecorderSays? ==> a.written.Ok?)
    ensures FullyRecorded(Step(setup, cache, m, a).run.phase)
  {
    hide QuietStep, DeliveryEvent, DeliveryResult, Put, RecorderFailed, Rejection;
    QuietFullyRecorded(setup, cache, m, a);
  }

  lemma {:induction false} DriveFullyRecorded(setup: Setup, ports: Ports, cache: Cache, m: Run, calls: nat)
    requires RecordersNeverRaise(ports) && Flat(m.phase) && FullyRecorded(m.phase)
    ensures FullyRecorded(Drive(setup, ports, cache, m, calls).run.phase)
    decreases Stage(Target(m.phase)), Rounds(setup, m.docket, Target(m.phase)), Writes(setup, m.phase)
  {
    hide Step, Rounds, Stage, Writes, Resumes, Terminal, FullyRecorded, RequiredChecks, Planned, Choice;
    hide Correlation;
    if !Terminal(m.phase) {
      var a := Ask(setup, ports, calls, m);
      StepFullyRecorded(setup, cache, m, a);
      EveryStepDescends(setup, ports, cache, calls, m);
      var p := Step(setup, cache, m, a);
      DriveFullyRecorded(setup, ports, p.cache, p.run, Calls(calls, a));
    }
  }

  /** When no recorder raises, a proposed cycle wrote every accepted item, every policy result,
      every constraint, the objective, every finding and the closing event, once each and in
      that order, and its receipts are those of these writes, R for every one of them. */
  lemma ProposalsAreFullyRecorded(setup: Setup, ports: Ports, cache: Cache, calls: nat, evidence: seq<Envelope>, scope: Scope)
    requires Lawful(ports) && RecordersNeverRaise(ports)
    ensures var m := Call(setup, ports, cache, calls, evidence, scope).run;
      About(setup, evidence, scope, m.docket) &&
      (m.phase.Finished? && m.phase.result.status.Proposed? && !m.phase.result.replayed ==>
        var d, r := m.docket, m.phase.result;
        && d.objective.Some? && r.signed.Some? && r.receipt.Some?
        && Map(EventOf, m.trail) == Map(AcceptedEvent, d.evidence) + Map(PolicyEvent, d.policies)
             + Map(ConstraintEvent, d.constraints) + [ObjectiveInterpreted(d.objective.value)]
             + Map(FindingEvent, d.findings) + [DecisionProposed(r.signed.value, r.receipt.value)]
        && r.proofs == Flatten(Map(ReceiptsOf, m.trail))
        && |r.proofs| == setup.recorders * (|d.evidence| + |d.policies| + |d.constraints| + |d.findings| + 2))
  {
    hide Drive, Lawful, CycleKey, Arrange, Holds, Tracked, RecordersNeverRaise, Flatten, AcceptedEvent;
    hide PolicyEvent;
    CallSound(setup, ports, cache, calls, evidence, scope);
    DriveFullyRecorded(setup, ports, cache, Begin(setup, evidence, scope), calls);
    var m := Call(setup, ports, cache, calls, evidence, scope).run;
    if m.phase.Finished? && m.phase.result.status.Proposed? && !m.phase.result.replayed {
      DeliveredTrail(setup, m);
    }
  }
}
