/** Complete runs: the state machine driven by the ports until it ends. The ports are as
    adversarial as Python allows: what a call answers may depend on its arguments and on
    how many calls went before it, hence on anything the host remembers. */
module Runs {
  import opened Basics
  import opened Order
  import opened Contracts
  import opened Signature
  import opened Registry
  import opened Cycle
  import opened KernelMachine
  import opened OneWayDoor
  import opened Gates
  import opened Trail

  datatype Ports = Ports(
    clock: nat -> Answer<Reading>,
    record: (nat, nat, Event, string) -> Answer<string>,
    evaluate: (nat, nat, seq<Envelope>, Scope) -> Answer<PolicyResult>,
    classify: (nat, nat, seq<Envelope>, seq<PolicyResult>, Scope) -> Answer<seq<Constraint>>,
    interpret: (nat, seq<Constraint>, seq<PolicyResult>, Scope) -> Answer<Objective>,
    propose: (nat, seq<Envelope>, seq<PolicyResult>, seq<Constraint>, Objective, Scope) -> Answer<Option<Plan>>,
    challenge: (nat, string, Candidate, seq<Envelope>, Scope, Instant) -> Answer<Finding>,
    sign: (nat, Package, string) -> Answer<seq<Byte>>,
    deliver: (nat, Signed) -> Answer<ProposalReceipt>)

  /** Whatever a port returns has passed its own validator. */
  ghost predicate Lawful(ports: Ports) {
    && (forall t, i, e, s :: WellTyped(PolicySays(ports.evaluate(t, i, e, s))))
    && (forall t, i, e, p, s :: WellTyped(ClassifierSays(ports.classify(t, i, e, p, s))))
    && (forall t, c, p, s :: WellTyped(InterpreterSays(ports.interpret(t, c, p, s))))
    && (forall t, e, p, c, o, s :: WellTyped(PlannerSays(ports.propose(t, e, p, c, o, s))))
    && (forall t, k, c, e, s, a :: WellTyped(CheckSays(ports.challenge(t, k, c, e, s, a))))
  }

  /** What the ports answer to a run that stands at its current point, after `calls` calls. */
  function Ask(setup: Setup, ports: Ports, calls: nat, m: Run): Input {
    var d := m.docket;
    match m.phase
    case ReadClock => ClockSays(ports.clock(calls))
    case Policy(i) => if i < setup.policies then PolicySays(ports.evaluate(calls, i, d.evidence, d.scope)) else Silent
    case Classify(i) =>
      if i < setup.classifiers then ClassifierSays(ports.classify(calls, i, d.evidence, d.policies, d.scope)) else Silent
    case Interpret => InterpreterSays(ports.interpret(calls, d.constraints, d.policies, d.scope))
    case Planning =>
      if d.objective.Some? then
        PlannerSays(ports.propose(calls, d.evidence, d.policies, d.constraints, d.objective.value, d.scope))
      else PlannerSays(Raise("AttributeError"))
    case Challenge(i) =>
      if Planned(setup, d) && i < |RequiredChecks(setup, d)| then
        CheckSays(ports.challenge(calls, RequiredChecks(setup, d)[i], Choice(d), d.evidence, d.scope, d.now))
      else Silent
    case Signing(package) => SignerSays(ports.sign(calls, package, setup.keyId))
    case Delivery(signed) => SinkSays(ports.deliver(calls, signed))
    case Recording(event, receipts, _) =>
      if |receipts| < setup.recorders then RecorderSays(ports.record(calls, |receipts|, event, Correlation(d))) else Silent
    case _ => Silent
  }

  lemma AskWellTyped(setup: Setup, ports: Ports, calls: nat, m: Run)
    requires Lawful(ports)
    ensures WellTyped(Ask(setup, ports, calls, m))
  {
  }

  // ----- Every run ends -----

  function Stage(phase: Phase): nat {
    match phase
    case Lookup => 14
    case ReadClock => 13
    case Evidence(_) => 12
    case Policy(_) => 11
    case Classify(_) => 10
    case Classified(_) => 9
    case Interpret => 8
    case Planning => 7
    case Challenge(_) => 6
    case Signing(_) => 5
    case Delivery(_) => 4
    case Settle(_) => 3
    case Reject(_) => 2
    case CacheRejection(_) => 1
    case _ => 0
  }

  /** How often a loop over n items that stands at item i still comes round. */
  function Over(n: nat, i: nat): nat {
    if i <= n then n - i + 1 else 0
  }

  function Checks(setup: Setup, d: Docket): nat {
    if Planned(setup, d) then |RequiredChecks(setup, d)| else 0
  }

  function Rounds(setup: Setup, d: Docket, phase: Phase): nat {
    match phase
    case Evidence(i) => Over(|d.evidence|, i)
    case Policy(i) => Over(setup.policies, i)
    case Classify(i) => Over(setup.classifiers, i)
    case Classified(i) => Over(|d.constraints|, i)
    case Challenge(i) => Over(Checks(setup, d), i)
    case _ => 0
  }

  /** How much of a proof write is left. */
  function Writes(setup: Setup, phase: Phase): nat {
    if phase.Recording? then 1 + Over(setup.recorders, |phase.receipts|) else 0
  }

  /** Proof writes do not nest. */
  ghost predicate Flat(phase: Phase) {
    phase.Recording? ==> Resumes(phase.next)
  }

  /** A step comes closer to the end: it enters a later stage, or goes on to the next item of
      the current loop, or to the next recorder of the current proof write. */
  ghost predicate Descends(setup: Setup, d: Docket, phase: Phase, d': Docket, phase': Phase) {
    var t, t' := Target(phase), Target(phase');
    && Flat(phase')
    && (|| Stage(t') < Stage(t)
        || (Stage(t') == Stage(t) && Rounds(setup, d', t') < Rounds(setup, d, t))
        || (Stage(t') == Stage(t) && Rounds(setup, d', t') == Rounds(setup, d, t) && Writes(setup, phase') < Writes(setup, phase)))
  }

  ghost predicate StepDescends(setup: Setup, m: Run, m': Run) {
    Descends(setup, m.docket, m.phase, m'.docket, m'.phase)
  }

  /** The input is what the run waits for. */
  predicate Fits(setup: Setup, m: Run, a: Input) {
    match m.phase
    case ReadClock => a.ClockSays?
    case Policy(i) => i < setup.policies ==> a.PolicySays?
    case Classify(i) => i < setup.classifiers ==> a.ClassifierSays?
    case Interpret => a.InterpreterSays?
    case Planning => a.PlannerSays?
    case Challenge(i) => Planned(setup, m.docket) && i < |RequiredChecks(setup, m.docket)| ==> a.CheckSays?
    case Signing(_) => a.SignerSays?
    case Delivery(_) => a.SinkSays?
    case Recording(_, receipts, _) => |receipts| < setup.recorders ==> a.RecorderSays?
    case _ => true
  }

  lemma AskFits(setup: Setup, ports: Ports, calls: nat, m: Run)
    ensures Fits(setup, m, Ask(setup, ports, calls, m))
  {
    hide Planned, RequiredChecks, Choice, Correlation;
  }

  lemma RecordingDescends(setup: Setup, cache: Cache, m: Run, a: Input)
    requires m.phase.Recording? && Flat(m.phase) && Fits(setup, m, a)
    ensures StepDescends(setup, m, RecordingStep(setup, cache, m, a).run)
  {
    hide Rounds, UnrecordedReason, Put;
  }

  lemma EvidenceDescends(setup: Setup, m: Run, i: nat)
    requires m.phase == Evidence(i)
    ensures StepDescends(setup, m, EvidenceStep(m, i))
  {
    hide FreshAt, ScopeReason, StaleReason, Checks;
  }

  lemma PolicyDescends(setup: Setup, m: Run, i: nat, a: Input)
    requires m.phase == Policy(i) && Fits(setup, m, a)
    ensures StepDescends(setup, m, PolicyStep(setup, m, i, a))
  {
    hide AllAllowed, Distinct, Inside, Known, Checks, Map;
  }

  lemma ClassifyDescends(setup: Setup, m: Run, i: nat, a: Input)
    requires m.phase == Classify(i) && Fits(setup, m, a)
    ensures StepDescends(setup, m, ClassifyStep(setup, m, i, a))
  {
    hide Distinct, ConstraintsInside, Known, Checks, Map, SortConstraints;
  }

  lemma InterpretDescends(setup: Setup, m: Run, a: Input)
    requires m.phase.Interpret? && Fits(setup, m, a)
    ensures StepDescends(setup, m, InterpretStep(m, a))
  {
    hide ObjectiveFits, Rounds;
  }

  lemma PlanningDescends(setup: Setup, m: Run, a: Input)
    requires m.phase.Planning? && Fits(setup, m, a)
    ensures StepDescends(setup, m, PlanningStep(setup, m, a))
  {
    hide PlanFits, Rounds;
  }

  lemma SameChecks(setup: Setup, d: Docket, f: Finding)
    ensures Checks(setup, d.(findings := d.findings + [f])) == Checks(setup, d)
  {
    hide Admitting;
  }

  lemma ChallengeDescends(setup: Setup, m: Run, i: nat, a: Input)
    requires m.phase == Challenge(i) && Fits(setup, m, a)
    ensures StepDescends(setup, m, ChallengeStep(setup, m, i, a))
  {
    hide FindingFits, Coherent, BuildPackage, AllSurvive, Choice, RequiredChecks, Planned;
    if a.CheckSays? && a.finding.Ok? {
      SameChecks(setup, m.docket, a.finding.value);
    }
  }

  lemma ClassifiedDescends(setup: Setup, m: Run, i: nat)
    requires m.phase == Classified(i)
    ensures StepDescends(setup, m, ClassifiedStep(m, i))
  {
    hide Checks;
  }

  lemma QuietDescends(setup: Setup, cache: Cache, m: Run, a: Input)
    requires m.phase.Lookup? || m.phase.ReadClock? || m.phase.Classified? || m.phase.Signing? || m.phase.Reject?
    requires Fits(setup, m, a)
    ensures StepDescends(setup, m, QuietStep(setup, cache, m, a))
  {
    hide OneCorrelation, Distinct, Map, Sealed, Sized, CauseReasons, CauseStatus, Checks, EvidenceStep;
    hide PolicyStep, ClassifyStep, InterpretStep, PlanningStep, ChallengeStep, Over, Planned, RequiredChecks;
    if m.phase.Classified? {
      ClassifiedDescends(setup, m, m.phase.i);
    }
  }

  lemma LoudDescends(setup: Setup, cache: Cache, m: Run, a: Input)
    requires m.phase.Delivery? || m.phase.Settle? || m.phase.CacheRejection?
    requires Fits(setup, m, a)
    ensures StepDescends(setup, m, Step(setup, cache, m, a).run)
  {
    hide Rounds, CauseReasons, DeliveryResult, DeliveryEvent, Rejection, Put, QuietStep, RecordingStep;
  }

  /** Whatever the ports answer, every step comes closer to the end. */
  lemma FittingStepDescends(setup: Setup, cache: Cache, m: Run, a: Input)
    requires Flat(m.phase) && !Terminal(m.phase) && Fits(setup, m, a)
    ensures StepDescends(setup, m, Step(setup, cache, m, a).run)
  {
    hide StepDescends, Flat, Fits, RecordingStep, LookupStep, ClockStep, EvidenceStep, PolicyStep, ClassifyStep;
    hide ClassifiedStep, InterpretStep, PlanningStep, ChallengeStep, SigningStep, RejectStep, DeliveryStep;
    hide SettleStep, CacheRejectionStep;
    match m.phase
    case Recording(_, _, _) => RecordingDescends(setup, cache, m, a);
    case Evidence(i) => EvidenceDescends(setup, m, i);
    case Policy(i) => PolicyDescends(setup, m, i, a);
    case Classify(i) => ClassifyDescends(setup, m, i, a);
    case Interpret => InterpretDescends(setup, m, a);
    case Planning => PlanningDescends(setup, m, a);
    case Challenge(i) => ChallengeDescends(setup, m, i, a);
    case Delivery(_) => LoudDescends(setup, cache, m, a);
    case Settle(_) => LoudDescends(setup, cache, m, a);
    case CacheRejection(_) => LoudDescends(setup, cache, m, a);
    case _ => QuietDescends(setup, cache, m, a);
  }

  lemma EveryStepDescends(setup: Setup, ports: Ports, cache: Cache, calls: nat, m: Run)
    requires Flat(m.phase) && !Terminal(m.phase)
    ensures StepDescends(setup, m, Step(setup, cache, m, Ask(setup, ports, calls, m)).run)
  {
    hide StepDescends, Flat, Fits, Step, Ask, Terminal;
    AskFits(setup, ports, calls, m);
    FittingStepDescends(setup, cache, m, Ask(setup, ports, calls, m));
  }

  // ----- Complete runs -----

  datatype Outcome = Outcome(cache: Cache, run: Run, calls: nat)

  function Calls(calls: nat, a: Input): nat {
    if a.Silent? then calls else calls + 1
  }

  /** Run to the end. That this is a total function says that every run ends, provided that
      every port call does. */
  ghost function Drive(setup: Setup, ports: Ports, cache: Cache, m: Run, calls: nat): Outcome
    requires Flat(m.phase)
    decreases Stage(Target(m.phase)), Rounds(setup, m.docket, Target(m.phase)), Writes(setup, m.phase)
  {
    if Terminal(m.phase) then Outcome(cache, m, calls)
    else
      EveryStepDescends(setup, ports, cache, calls, m);
      var a := Ask(setup, ports, calls, m);
      var p := Step(setup, cache, m, a);
      Drive(setup, ports, p.cache, p.run, Calls(calls, a))
  }

  /** One call of the kernel on an idle event loop. */
  ghost function Call(setup: Setup, ports: Ports, cache: Cache, calls: nat, evidence: seq<Envelope>, scope: Scope): Outcome {
    Drive(setup, ports, cache, Begin(setup, evidence, scope), calls)
  }
}
