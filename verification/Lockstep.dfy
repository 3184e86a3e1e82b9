/** What the kernel's methods need of the state machine: where one step leads from each
    program point, given what the ports answer there. */
module Lockstep {
  import opened Basics
  import opened Contracts
  import opened Signature
  import opened Registry
  import opened Cycle
  import opened KernelMachine
  import opened Gates
  import opened Runs

  /** The run ends the same way from both points, and what the gates promise at the first
      point they promise at the second. */
  ghost predicate Leads(setup: Setup, ports: Ports, cache: Cache, m: Run, calls: nat, cache': Cache, m': Run, calls': nat) {
    && Flat(m.phase) && Flat(m'.phase)
    && Drive(setup, ports, cache, m, calls) == Drive(setup, ports, cache', m', calls')
    && (Lawful(ports) && Holds(setup, m) ==> Holds(setup, m'))
  }

  lemma OneStep(setup: Setup, ports: Ports, cache: Cache, m: Run, calls: nat)
    requires Flat(m.phase) && !Terminal(m.phase)
    ensures var a := Ask(setup, ports, calls, m); var p := Step(setup, cache, m, a);
      Leads(setup, ports, cache, m, calls, p.cache, p.run, Calls(calls, a))
  {
    hide Ask, Step, Rounds, Stage, Writes, Resumes, Terminal, Holds, WellTyped, Lawful;
    EveryStepDescends(setup, ports, cache, calls, m);
    if Lawful(ports) && Holds(setup, m) {
      AskWellTyped(setup, ports, calls, m);
      StepHolds(setup, cache, m, Ask(setup, ports, calls, m));
    }
  }

  lemma NothingFollows(setup: Setup, ports: Ports, cache: Cache, m: Run, calls: nat)
    requires Terminal(m.phase)
    ensures Flat(m.phase) && Drive(setup, ports, cache, m, calls) == Outcome(cache, m, calls)
  {
    hide Ask, Step;
  }

  // ----- Proof writes -----

  ghost function Wrote(m: Run, event: Event, receipts: seq<string>, next: Phase): Run {
    m.(trail := m.trail + [Entry(event, receipts)], proofs := m.proofs + receipts, phase := next)
  }

  lemma RecorderAsked(setup: Setup, ports: Ports, cache: Cache, m: Run, calls: nat)
    requires m.phase.Recording? && Resumes(m.phase.next) && |m.phase.receipts| < setup.recorders
    ensures var Recording(event, receipts, next) := m.phase;
      match ports.record(calls, |receipts|, event, Correlation(m.docket))
      case Ok(r) => Leads(setup, ports, cache, m, calls, cache, m.(phase := Recording(event, receipts + [r], next)), calls + 1)
      case Raise(x) =>
        var p := RecorderFailed(cache, m, next, x);
        Leads(setup, ports, cache, m, calls, p.cache, p.run, calls + 1)
  {
    hide Leads, QuietStep, Correlation, RecorderFailed, Planned, RequiredChecks, DeliveryStep, SettleStep;
    hide CacheRejectionStep;
    OneStep(setup, ports, cache, m, calls);
  }

  lemma RecordersDone(setup: Setup, ports: Ports, cache: Cache, m: Run, calls: nat)
    requires m.phase.Recording? && Resumes(m.phase.next) && |m.phase.receipts| == setup.recorders
    ensures Leads(setup, ports, cache, m, calls, cache, Wrote(m, m.phase.event, m.phase.receipts, m.phase.next), calls)
  {
    hide Leads, QuietStep, Correlation, RecorderFailed, Planned, RequiredChecks, DeliveryStep, SettleStep;
    hide CacheRejectionStep;
    OneStep(setup, ports, cache, m, calls);
  }

  // ----- Gates -----

  lemma LookupLeads(setup: Setup, ports: Ports, cache: Cache, m: Run, calls: nat)
    requires m.phase.Lookup?
    ensures Leads(setup, ports, cache, m, calls, cache, LookupStep(cache, m), calls)
  {
    hide Leads, RecordingStep, DeliveryStep, SettleStep, CacheRejectionStep, Planned, RequiredChecks, Choice;
    hide Resumes, LookupStep, ClockStep, EvidenceStep, PolicyStep, ClassifyStep, ClassifiedStep, InterpretStep;
    hide PlanningStep, ChallengeStep, SigningStep, RejectStep;
    OneStep(setup, ports, cache, m, calls);
  }

  lemma ClockLeads(setup: Setup, ports: Ports, cache: Cache, m: Run, calls: nat)
    requires m.phase.ReadClock?
    ensures Leads(setup, ports, cache, m, calls, cache, ClockStep(m, ports.clock(calls)), calls + 1)
  {
    hide Leads, RecordingStep, DeliveryStep, SettleStep, CacheRejectionStep, Planned, RequiredChecks, Choice;
    hide Resumes, LookupStep, ClockStep, EvidenceStep, PolicyStep, ClassifyStep, ClassifiedStep, InterpretStep;
    hide PlanningStep, ChallengeStep, SigningStep, RejectStep;
    OneStep(setup, ports, cache, m, calls);
  }

  lemma EvidenceLeads(setup: Setup, ports: Ports, cache: Cache, m: Run, calls: nat, i: nat)
    requires m.phase == Evidence(i)
    ensures Leads(setup, ports, cache, m, calls, cache, EvidenceStep(m, i), calls)
  {
    hide Leads, RecordingStep, DeliveryStep, SettleStep, CacheRejectionStep, Planned, RequiredChecks, Choice;
    hide Resumes, LookupStep, ClockStep, EvidenceStep, PolicyStep, ClassifyStep, ClassifiedStep, InterpretStep;
    hide PlanningStep, ChallengeStep, SigningStep, RejectStep;
    OneStep(setup, ports, cache, m, calls);
  }

  lemma PolicyLeads(setup: Setup, ports: Ports, cache: Cache, m: Run, calls: nat, i: nat)
    requires m.phase == Policy(i) && i < setup.policies
    ensures Leads(setup, ports, cache, m, calls, cache,
                  PolicyStep(setup, m, i, PolicySays(ports.evaluate(calls, i, m.docket.evidence, m.docket.scope))),
                  calls + 1)
  {
    hide Leads, RecordingStep, DeliveryStep, SettleStep, CacheRejectionStep, Planned, RequiredChecks, Choice;
    hide Resumes, LookupStep, ClockStep, EvidenceStep, PolicyStep, ClassifyStep, ClassifiedStep, InterpretStep;
    hide PlanningStep, ChallengeStep, SigningStep, RejectStep;
    OneStep(setup, ports, cache, m, calls);
  }

  lemma PoliciesLead(setup: Setup, ports: Ports, cache: Cache, m: Run, calls: nat, i: nat)
    requires m.phase == Policy(i) && i >= setup.policies
    ensures Leads(setup, ports, cache, m, calls, cache, PolicyStep(setup, m, i, Silent), calls)
  {
    hide Leads, RecordingStep, DeliveryStep, SettleStep, CacheRejectionStep, Planned, RequiredChecks, Choice;
    hide Resumes, LookupStep, ClockStep, EvidenceStep, PolicyStep, ClassifyStep, ClassifiedStep, InterpretStep;
    hide PlanningStep, ChallengeStep, SigningStep, RejectStep;
    OneStep(setup, ports, cache, m, calls);
  }

  lemma ClassifierLeads(setup: Setup, ports: Ports, cache: Cache, m: Run, calls: nat, i: nat)
    requires m.phase == Classify(i) && i < setup.classifiers
    ensures Leads(setup, ports, cache, m, calls, cache,
                  ClassifyStep(setup, m, i, ClassifierSays(ports.classify(calls, i, m.docket.evidence, m.docket.policies, m.docket.scope))),
                  calls + 1)
  {
    hide Leads, RecordingStep, DeliveryStep, SettleStep, CacheRejectionStep, Planned, RequiredChecks, Choice;
    hide Resumes, LookupStep, ClockStep, EvidenceStep, PolicyStep, ClassifyStep, ClassifiedStep, InterpretStep;
    hide PlanningStep, ChallengeStep, SigningStep, RejectStep;
    OneStep(setup, ports, cache, m, calls);
  }

  lemma ClassifiersLead(setup: Setup, ports: Ports, cache: Cache, m: Run, calls: nat, i: nat)
    requires m.phase == Classify(i) && i >= setup.classifiers
    ensures Leads(setup, ports, cache, m, calls, cache, ClassifyStep(setup, m, i, Silent), calls)
  {
    hide Leads, RecordingStep, DeliveryStep, SettleStep, CacheRejectionStep, Planned, RequiredChecks, Choice;
    hide Resumes, LookupStep, ClockStep, EvidenceStep, PolicyStep, ClassifyStep, ClassifiedStep, InterpretStep;
    hide PlanningStep, ChallengeStep, SigningStep, RejectStep;
    OneStep(setup, ports, cache, m, calls);
  }

  lemma ClassifiedLeads(setup: Setup, ports: Ports, cache: Cache, m: Run, calls: nat, i: nat)
    requires m.phase == Classified(i)
    ensures Leads(setup, ports, cache, m, calls, cache, ClassifiedStep(m, i), calls)
  {
    hide Leads, RecordingStep, DeliveryStep, SettleStep, CacheRejectionStep, Planned, RequiredChecks, Choice;
    hide Resumes, LookupStep, ClockStep, EvidenceStep, PolicyStep, ClassifyStep, ClassifiedStep, InterpretStep;
    hide PlanningStep, ChallengeStep, SigningStep, RejectStep;
    OneStep(setup, ports, cache, m, calls);
  }

  lemma InterpreterLeads(setup: Setup, ports: Ports, cache: Cache, m: Run, calls: nat)
    requires m.phase.Interpret?
    ensures Leads(setup, ports, cache, m, calls, cache,
                  InterpretStep(m, InterpreterSays(ports.interpret(calls, m.docket.constraints, m.docket.policies, m.docket.scope))),
                  calls + 1)
  {
    hide Leads, RecordingStep, DeliveryStep, SettleStep, CacheRejectionStep, Planned, RequiredChecks, Choice;
    hide Resumes, LookupStep, ClockStep, EvidenceStep, PolicyStep, ClassifyStep, ClassifiedStep, InterpretStep;
    hide PlanningStep, ChallengeStep, SigningStep, RejectStep;
    OneStep(setup, ports, cache, m, calls);
  }

  lemma PlannerLeads(setup: Setup, ports: Ports, cache: Cache, m: Run, calls: nat)
    requires m.phase.Planning? && m.docket.objective.Some?
    ensures Leads(setup, ports, cache, m, calls, cache,
                  PlanningStep(setup, m, PlannerSays(ports.propose(calls, m.docket.evidence, m.docket.policies, m.docket.constraints,
                    m.docket.objective.value, m.docket.scope))),
                  calls + 1)
  {
    hide Leads, RecordingStep, DeliveryStep, SettleStep, CacheRejectionStep, Planned, RequiredChecks, Choice;
    hide Resumes, LookupStep, ClockStep, EvidenceStep, PolicyStep, ClassifyStep, ClassifiedStep, InterpretStep;
    hide PlanningStep, ChallengeStep, SigningStep, RejectStep;
    OneStep(setup, ports, cache, m, calls);
  }

  lemma CheckLeads(setup: Setup, ports: Ports, cache: Cache, m: Run, calls: nat, i: nat)
    requires m.phase == Challenge(i) && Planned(setup, m.docket) && i < |RequiredChecks(setup, m.docket)|
    ensures Leads(setup, ports, cache, m, calls, cache,
                  ChallengeStep(setup, m, i, CheckSays(ports.challenge(calls, RequiredChecks(setup, m.docket)[i], Choice(m.docket),
                    m.docket.evidence, m.docket.scope, m.docket.now))),
                  calls + 1)
  {
    hide Leads, RecordingStep, DeliveryStep, SettleStep, CacheRejectionStep, Planned, RequiredChecks, Choice;
    hide Resumes, LookupStep, ClockStep, EvidenceStep, PolicyStep, ClassifyStep, ClassifiedStep, InterpretStep;
    hide PlanningStep, ChallengeStep, SigningStep, RejectStep;
    OneStep(setup, ports, cache, m, calls);
  }

  lemma CheckAnswered(setup: Setup, m: Run, i: nat, answer: Answer<Finding>)
    requires m.phase == Challenge(i) && Planned(setup, m.docket) && i < |RequiredChecks(setup, m.docket)|
    ensures ChallengeStep(setup, m, i, CheckSays(answer)) ==
      if answer.Ok? && FindingFits(m.docket, answer.value, Choice(m.docket).id, RequiredChecks(setup, m.docket)[i]) then
        m.(docket := m.docket.(findings := m.docket.findings + [answer.value]),
           phase := Recording(FalsificationCompleted(answer.value), [], Challenge(i + 1)))
      else m.(phase := Raised)
  {
    hide FindingFits, Coherent, BuildPackage, AllSurvive, Selected, Admitting;
  }

  lemma ChecksLead(setup: Setup, ports: Ports, cache: Cache, m: Run, calls: nat, i: nat)
    requires m.phase == Challenge(i) && Planned(setup, m.docket) && i >= |RequiredChecks(setup, m.docket)|
    ensures Leads(setup, ports, cache, m, calls, cache, ChallengeStep(setup, m, i, Silent), calls)
  {
    hide Leads, RecordingStep, DeliveryStep, SettleStep, CacheRejectionStep, Planned, RequiredChecks, Choice;
    hide Resumes, LookupStep, ClockStep, EvidenceStep, PolicyStep, ClassifyStep, ClassifiedStep, InterpretStep;
    hide PlanningStep, ChallengeStep, SigningStep, RejectStep;
    OneStep(setup, ports, cache, m, calls);
  }

  lemma SignerLeads(setup: Setup, ports: Ports, cache: Cache, m: Run, calls: nat, package: Package)
    requires m.phase == Signing(package)
    ensures Leads(setup, ports, cache, m, calls, cache,
                  SigningStep(setup, m, package, SignerSays(ports.sign(calls, package, setup.keyId))),
                  calls + 1)
  {
    hide Leads, RecordingStep, DeliveryStep, SettleStep, CacheRejectionStep, Planned, RequiredChecks, Choice;
    hide Resumes, LookupStep, ClockStep, EvidenceStep, PolicyStep, ClassifyStep, ClassifiedStep, InterpretStep;
    hide PlanningStep, ChallengeStep, SigningStep, RejectStep;
    OneStep(setup, ports, cache, m, calls);
  }

  lemma RejectLeads(setup: Setup, ports: Ports, cache: Cache, m: Run, calls: nat, cause: Cause)
    requires m.phase == Reject(cause)
    ensures Leads(setup, ports, cache, m, calls, cache, RejectStep(m, cause), calls)
  {
    hide Leads, RecordingStep, DeliveryStep, SettleStep, CacheRejectionStep, Planned, RequiredChecks, Choice;
    hide Resumes, LookupStep, ClockStep, EvidenceStep, PolicyStep, ClassifyStep, ClassifiedStep, InterpretStep;
    hide PlanningStep, ChallengeStep, SigningStep, RejectStep;
    OneStep(setup, ports, cache, m, calls);
  }

  // ----- Results -----

  lemma SinkLeads(setup: Setup, ports: Ports, cache: Cache, m: Run, calls: nat, signed: Signed)
    requires m.phase == Delivery(signed)
    ensures var p := DeliveryStep(cache, m, signed, SinkSays(ports.deliver(calls, signed)));
      Leads(setup, ports, cache, m, calls, p.cache, p.run, calls + 1)
  {
    hide Leads, Resumes, QuietStep, RecordingStep, DeliveryStep, SettleStep, CacheRejectionStep;
    OneStep(setup, ports, cache, m, calls);
  }

  lemma SettleLeads(setup: Setup, ports: Ports, cache: Cache, m: Run, calls: nat, result: KernelResult)
    requires m.phase == Settle(result)
    ensures var p := SettleStep(cache, m, result);
      Leads(setup, ports, cache, m, calls, p.cache, p.run, calls)
  {
    hide Leads, Resumes, QuietStep, RecordingStep, DeliveryStep, SettleStep, CacheRejectionStep;
    OneStep(setup, ports, cache, m, calls);
  }

  lemma CacheRejectionLeads(setup: Setup, ports: Ports, cache: Cache, m: Run, calls: nat, cause: Cause)
    requires m.phase == CacheRejection(cause)
    ensures var p := CacheRejectionStep(cache, m, cause);
      Leads(setup, ports, cache, m, calls, p.cache, p.run, calls)
  {
    hide Leads, Resumes, QuietStep, RecordingStep, DeliveryStep, SettleStep, CacheRejectionStep;
    OneStep(setup, ports, cache, m, calls);
  }
}
