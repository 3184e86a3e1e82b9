/** The governance kernel's cycle as a state machine. A run moves from one program point to
    the next, either silently or by consuming what a port answered; the ports may answer
    anything that satisfies their own contracts, or raise. The replay cache is the only
    state that runs share. */
module KernelMachine {
  import opened Basics
  import opened Order
  import opened Json
  import opened Contracts
  import opened Signature
  import opened Registry
  import opened Cycle

  // ----- Results -----

  datatype KernelStatus = Proposed | DeliveryUnknown | Declined | NoCandidate

  datatype ProposalStatus = Accepted | Rejected | Deferred

  datatype ProposalReceipt = ProposalReceipt(status: ProposalStatus, consumer: string, packageDigest: string)

  datatype Signed = Signed(package: Package, digest: string, signature: string, keyId: string)

  datatype KernelResult = KernelResult(
    status: KernelStatus, cycleKey: string, correlationId: string, signed: Option<Signed>,
    receipt: Option<ProposalReceipt>, reasons: seq<string>, proofs: seq<string>, replayed: bool)

  type Cache = map<string, KernelResult>

  /** What the cache stores never says that it was replayed. */
  function Put(cache: Cache, r: KernelResult): Cache {
    cache[r.cycleKey := r.(replayed := false)]
  }

  // ----- The host's configuration -----

  datatype Setup = Setup(
    hash: Hashing, recorders: nat, policies: nat, classifiers: nat, checks: set<string>,
    definitions: map<string, Definition>, conforms: Conforms, ttl: int, keyId: string, proposer: Proposer)

  /** What the kernel's constructor and the registry insist on. */
  ghost predicate ValidSetup(setup: Setup) {
    setup.ttl > 0 && setup.classifiers > 0 && WellFiled(setup.definitions)
  }

  // ----- Proof events -----

  datatype Event =
    | EvidenceRejected(reason: string, evidenceId: string)
    | EvidenceAccepted(item: Envelope)
    | PolicyEvaluated(policy: PolicyResult)
    | ConstraintClassified(constraint: Constraint)
    | ObjectiveInterpreted(objective: Objective)
    | FalsificationCompleted(finding: Finding)
    | DecisionRejected(status: KernelStatus, cycleKey: string, reasons: seq<string>)
    | DecisionProposed(signed: Signed, receipt: ProposalReceipt)
    | DeliveryUnresolved(digest: string, answer: Option<ProposalReceipt>, reason: string)

  /** A completed proof write: one receipt from every recorder. */
  datatype Entry = Entry(event: Event, receipts: seq<string>)

  // ----- A run -----

  /** Why a cycle ends without a proposal. */
  datatype Cause =
    | Foreign(i: nat)        // evidence i has another scope
    | Stale(i: nat)          // evidence i is outside its window
    | Denied
    | NoConstraints
    | NoPlan
    | Falsified

  datatype Ending = Replayed | Closed(cause: Cause) | Settled | Unrecorded

  datatype Phase =
    | Lookup
    | ReadClock
    | Evidence(i: nat)
    | Policy(i: nat)
    | Classify(i: nat)
    | Classified(i: nat)
    | Interpret
    | Planning
    | Challenge(i: nat)
    | Signing(package: Package)
    | Delivery(signed: Signed)
    | Settle(result: KernelResult)
    | Reject(cause: Cause)
    | CacheRejection(cause: Cause)
    | Recording(event: Event, receipts: seq<string>, next: Phase)
    | Finished(result: KernelResult, ending: Ending)
    | Raised

  /** What a run has gathered about its cycle. */
  datatype Docket = Docket(
    key: string, evidence: seq<Envelope>, scope: Scope, now: Instant, policies: seq<PolicyResult>,
    constraints: seq<Constraint>, objective: Option<Objective>, plan: Option<Plan>, findings: seq<Finding>)

  /** The docket, the completed proof writes with their receipts, and what the run has asked
      of the signer and the sink. */
  datatype Run = Run(
    docket: Docket, trail: seq<Entry>, proofs: seq<string>,
    signerCalled: bool, offered: seq<Signed>, phase: Phase)

  function Begin(setup: Setup, evidence: seq<Envelope>, scope: Scope): Run {
    var arranged := Arrange(setup.hash, evidence);
    Run(Docket(CycleKey(setup.hash, arranged, scope), arranged, scope, 0, [], [], None, None, []),
        [], [], false, [], Lookup)
  }

  predicate Terminal(phase: Phase) {
    phase.Finished? || phase.Raised?
  }

  /** The program points that follow a proof write. */
  predicate Resumes(next: Phase) {
    || next.Evidence? || next.Policy? || next.Classified? || next.Planning? || next.Challenge?
    || next.Reject? || next.CacheRejection? || next.Settle?
  }

  /** While a proof write is under way, the point that the run resumes at. */
  function Target(phase: Phase): Phase {
    if phase.Recording? then phase.next else phase
  }

  function Correlation(d: Docket): string {
    if d.evidence == [] then "" else d.evidence[0].metadata.correlationId
  }

  function Known(d: Docket): set<string> {
    Elements(Map(DigestOf, d.evidence))
  }

  // ----- What the ports answer -----

  datatype Reading = Aware(at: Instant) | Naive

  datatype Input =
    | Silent
    | ClockSays(reading: Answer<Reading>)
    | RecorderSays(written: Answer<string>)
    | PolicySays(policy: Answer<PolicyResult>)
    | ClassifierSays(constraints: Answer<seq<Constraint>>)
    | InterpreterSays(objective: Answer<Objective>)
    | PlannerSays(plan: Answer<Option<Plan>>)
    | CheckSays(finding: Answer<Finding>)
    | SignerSays(signature: Answer<seq<Byte>>)
    | SinkSays(receipt: Answer<ProposalReceipt>)

  /** Every value that a port returns has passed its own validator. */
  ghost predicate WellTyped(a: Input) {
    match a
    case PolicySays(Ok(r)) => ValidPolicyResult(r)
    case ClassifierSays(Ok(cs)) => forall c :: c in cs ==> ValidConstraint(c)
    case InterpreterSays(Ok(o)) => ValidObjective(o)
    case PlannerSays(Ok(Some(p))) => ValidPlan(p)
    case CheckSays(Ok(f)) => ValidFinding(f)
    case _ => true
  }

  // ----- Evidence -----

  function ScopeReason(): string {
    "evidence scope does not match the requested cycle scope"
  }

  function StaleReason(e: Envelope): string {
    "evidence is outside its validity window: " + e.metadata.id
  }

  function LookupStep(cache: Cache, m: Run): Run {
    if m.docket.evidence == [] then m.(phase := Raised)
    else if m.docket.key in cache then m.(phase := Finished(cache[m.docket.key].(replayed := true), Replayed))
    else m.(phase := ReadClock)
  }

  predicate OneCorrelation(evidence: seq<Envelope>) {
    forall e, f :: e in evidence && f in evidence ==> e.metadata.correlationId == f.metadata.correlationId
  }

  function ClockStep(m: Run, reading: Answer<Reading>): Run {
    if reading.Raise? || reading.value.Naive? then m.(phase := Raised)
    else if !OneCorrelation(m.docket.evidence) || !Distinct(Map(IdentityOf, m.docket.evidence)) then m.(phase := Raised)
    else m.(docket := m.docket.(now := reading.value.at), phase := Evidence(0))
  }

  function EvidenceStep(m: Run, i: nat): Run {
    if i >= |m.docket.evidence| then m.(phase := Policy(0))
    else
      var item := m.docket.evidence[i];
      if item.scope != m.docket.scope then
        m.(phase := Recording(EvidenceRejected(ScopeReason(), item.metadata.id), [], Reject(Foreign(i))))
      else if !FreshAt(item, m.docket.now) then
        m.(phase := Recording(EvidenceRejected(StaleReason(item), item.metadata.id), [], Reject(Stale(i))))
      else
        m.(phase := Recording(EvidenceAccepted(item), [], Evidence(i + 1)))
  }

  // ----- Policies, constraints, objective -----

  predicate AllAllowed(policies: seq<PolicyResult>) {
    forall r :: r in policies ==> r.allowed
  }

  function PolicyStep(setup: Setup, m: Run, i: nat, a: Input): Run {
    if i < setup.policies then
      match a
      case PolicySays(Ok(r)) =>
        if Inside(r.evidenceRefs, Known(m.docket)) then
          m.(docket := m.docket.(policies := m.docket.policies + [r]), phase := Recording(PolicyEvaluated(r), [], Policy(i + 1)))
        else m.(phase := Raised)
      case PolicySays(Raise(_)) => m.(phase := Raised)
      case _ => m
    else if !AllAllowed(m.docket.policies) then m.(phase := Reject(Denied))
    else if !Distinct(Map(CheckId, m.docket.policies)) then m.(phase := Raised)
    else m.(phase := Classify(0))
  }

  function ConstraintKey(c: Constraint): seq<string> { [c.name, c.id] }

  function SortConstraints(cs: seq<Constraint>): seq<Constraint> {
    Sort(cs, ByKey(ConstraintKey, TupleLe))
  }

  predicate ConstraintsInside(cs: seq<Constraint>, known: set<string>) {
    forall c :: c in cs ==> Inside(c.evidenceRefs, known)
  }

  function ClassifyStep(setup: Setup, m: Run, i: nat, a: Input): Run {
    if i < setup.classifiers then
      match a
      case ClassifierSays(Ok(cs)) =>
        if ConstraintsInside(cs, Known(m.docket)) then
          m.(docket := m.docket.(constraints := m.docket.constraints + cs), phase := Classify(i + 1))
        else m.(phase := Raised)
      case ClassifierSays(Raise(_)) => m.(phase := Raised)
      case _ => m
    else if !Distinct(Map(ConstraintId, m.docket.constraints)) then m.(phase := Raised)
    else if m.docket.constraints == [] then m.(phase := Reject(NoConstraints))
    else m.(docket := m.docket.(constraints := SortConstraints(m.docket.constraints)), phase := Classified(0))
  }

  function ClassifiedStep(m: Run, i: nat): Run {
    if i < |m.docket.constraints| then
      m.(phase := Recording(ConstraintClassified(m.docket.constraints[i]), [], Classified(i + 1)))
    else m.(phase := Interpret)
  }

  predicate ObjectiveFits(d: Docket, o: Objective) {
    && Inside(o.evidenceRefs, Known(d))
    && Elements(o.constraintIds) == Elements(Map(ConstraintId, d.constraints))
  }

  function InterpretStep(m: Run, a: Input): Run {
    match a
    case InterpreterSays(Ok(o)) =>
      if ObjectiveFits(m.docket, o) then
        m.(docket := m.docket.(objective := Some(o)), phase := Recording(ObjectiveInterpreted(o), [], Planning))
      else m.(phase := Raised)
    case InterpreterSays(Raise(_)) => m.(phase := Raised)
    case _ => m
  }

  // ----- The plan -----

  predicate CandidatesFit(setup: Setup, d: Docket, candidates: seq<Candidate>) {
    forall c :: c in candidates ==>
      && Inside(c.evidenceRefs, Known(d))
      && Inside(c.constraintRefs, Elements(Map(ConstraintId, d.constraints)))
      && Admitting(setup.definitions, setup.conforms, c).Some?
  }

  predicate SelectionFits(setup: Setup, d: Docket, o: Objective, selected: Candidate, candidates: seq<Candidate>)
    requires selected in candidates
  {
    && Priced(o, candidates)
    && Cheapest(o, selected, candidates)
    && Covers(selected, d.constraints)
    && var definition := Admitting(setup.definitions, setup.conforms, selected);
       definition.Some? && forall check :: check in definition.value.checks ==> check in setup.checks
  }

  predicate PlanFits(setup: Setup, d: Docket, o: Objective, p: Plan) {
    && CandidatesFit(setup, d, p.candidates)
    && p.selectedId in Map(CandidateId, p.candidates)
    && SelectionFits(setup, d, o, Selected(p.candidates, p.selectedId), p.candidates)
  }

  function PlanningStep(setup: Setup, m: Run, a: Input): Run {
    match a
    case PlannerSays(Ok(None)) => m.(phase := Reject(NoPlan))
    case PlannerSays(Ok(Some(p))) =>
      if m.docket.objective.Some? && PlanFits(setup, m.docket, m.docket.objective.value, p) then
        m.(docket := m.docket.(plan := Some(p)), phase := Challenge(0))
      else m.(phase := Raised)
    case PlannerSays(Raise(_)) => m.(phase := Raised)
    case _ => m
  }

  // ----- Falsification -----

  /** The run holds an objective and a plan whose selected candidate is registered. */
  predicate Planned(setup: Setup, d: Docket) {
    && d.objective.Some? && d.plan.Some?
    && d.plan.value.selectedId in Map(CandidateId, d.plan.value.candidates)
    && Admitting(setup.definitions, setup.conforms, Choice(d)).Some?
  }

  function Choice(d: Docket): Candidate
    requires d.plan.Some? && d.plan.value.selectedId in Map(CandidateId, d.plan.value.candidates)
  {
    Selected(d.plan.value.candidates, d.plan.value.selectedId)
  }

  function RequiredChecks(setup: Setup, d: Docket): seq<string>
    requires Planned(setup, d)
  {
    Admitting(setup.definitions, setup.conforms, Choice(d)).value.checks
  }

  predicate FindingFits(d: Docket, f: Finding, candidateId: string, checkId: string) {
    f.candidateId == candidateId && f.checkId == checkId && Inside(f.evidenceRefs, Known(d))
  }

  predicate AllSurvive(findings: seq<Finding>) {
    forall f :: f in findings ==> f.verdict.Survives?
  }

  function ChallengeStep(setup: Setup, m: Run, i: nat, a: Input): Run {
    if !Planned(setup, m.docket) then m.(phase := Raised)
    else if i < |RequiredChecks(setup, m.docket)| then
      match a
      case CheckSays(Ok(f)) =>
        if FindingFits(m.docket, f, Choice(m.docket).id, RequiredChecks(setup, m.docket)[i]) then
          m.(docket := m.docket.(findings := m.docket.findings + [f]), phase := Recording(FalsificationCompleted(f), [], Challenge(i + 1)))
        else m.(phase := Raised)
      case CheckSays(Raise(_)) => m.(phase := Raised)
      case _ => m
    else if !AllSurvive(m.docket.findings) then m.(phase := Reject(Falsified))
    else
      var package := BuildPackage(setup, m.docket);
      if Coherent(package) then m.(signerCalled := true, phase := Signing(package)) else m.(phase := Raised)
  }

  // ----- The package -----

  function Reference(hash: Hashing, e: Envelope): EvidenceReference {
    EvidenceReference(e.metadata.id, e.metadata.producer, e.metadata.schemaUri, e.assurance.digest,
                      hash.envelope(e), e.assurance.artifactUri)
  }

  function References(hash: Hashing): Envelope -> EvidenceReference {
    (e: Envelope) => Reference(hash, e)
  }

  function EarliestExpiry(evidence: seq<Envelope>, bound: Instant): Instant {
    if evidence == [] then bound
    else
      var rest := EarliestExpiry(evidence[1..], bound);
      if evidence[0].metadata.expiresAt < rest then evidence[0].metadata.expiresAt else rest
  }

  function BuildPackage(setup: Setup, d: Docket): Package
    requires Planned(setup, d)
  {
    Package(d.now, EarliestExpiry(d.evidence, d.now + setup.ttl), Correlation(d), d.scope, setup.proposer,
            Map(References(setup.hash), d.evidence), Dedup(Map(DigestOf, d.evidence)), d.policies,
            d.constraints, d.objective.value, d.plan.value.candidates, d.plan.value.selectedId,
            d.plan.value.rejected, d.findings, d.key)
  }

  // ----- Signing and delivery -----

  function Sealed(setup: Setup, package: Package, signature: seq<Byte>): Signed {
    Signed(package, setup.hash.package(package), SignatureText(signature), setup.keyId)
  }

  function SigningStep(setup: Setup, m: Run, package: Package, a: Input): Run {
    match a
    case SignerSays(Ok(signature)) =>
      if |signature| == 64 && Sized(setup.keyId, 512) then
        var signed := Sealed(setup, package, signature);
        m.(offered := m.offered + [signed], phase := Delivery(signed))
      else m.(phase := Raised)
    case SignerSays(Raise(_)) => m.(phase := Raised)
    case _ => m
  }

  function MismatchReason(): string {
    "proposal receipt digest does not match the signed package"
  }

  function UnknownReason(exception: string): string {
    "proposal delivery outcome is unknown: " + exception
  }

  function UnrecordedReason(exception: string): string {
    "proof recording failed after proposal delivery: " + exception
  }

  /** The result that is cached before the final proof write is attempted. */
  function DeliveryResult(m: Run, signed: Signed, answer: Answer<ProposalReceipt>): KernelResult {
    match answer
    case Raise(x) =>
      KernelResult(DeliveryUnknown, m.docket.key, Correlation(m.docket), Some(signed), None, [UnknownReason(x)], m.proofs, false)
    case Ok(r) =>
      if r.packageDigest != signed.digest then
        KernelResult(DeliveryUnknown, m.docket.key, Correlation(m.docket), Some(signed), Some(r), [MismatchReason()], m.proofs, false)
      else
        KernelResult(Proposed, m.docket.key, Correlation(m.docket), Some(signed), Some(r), [], m.proofs, false)
  }

  function DeliveryEvent(signed: Signed, answer: Answer<ProposalReceipt>): Event {
    match answer
    case Raise(x) => DeliveryUnresolved(signed.digest, None, UnknownReason(x))
    case Ok(r) =>
      if r.packageDigest != signed.digest then DeliveryUnresolved(signed.digest, Some(r), MismatchReason())
      else DecisionProposed(signed, r)
  }

  // ----- Rejection -----

  function CauseStatus(cause: Cause): KernelStatus {
    if cause.NoConstraints? || cause.NoPlan? then NoCandidate else Declined
  }

  function NoConstraintsReason(): string {
    "no evidence-derived constraints were produced"
  }

  function NoPlanReason(): string {
    "planner produced no candidate"
  }

  function DenialReason(r: PolicyResult): string { r.checkId + ": " + r.reason }

  predicate IsDenied(r: PolicyResult) { !r.allowed }

  function DeniedReasons(policies: seq<PolicyResult>): seq<string> {
    Map(DenialReason, Filter(IsDenied, policies))
  }

  function FailureReason(f: Finding): string { f.checkId + ": " + f.reasoning }

  predicate IsFailed(f: Finding) { f.verdict.Fails? }

  function FailedReasons(findings: seq<Finding>): seq<string> {
    Map(FailureReason, Filter(IsFailed, findings))
  }

  function CauseReasons(d: Docket, cause: Cause): seq<string> {
    match cause
    case Foreign(_) => [ScopeReason()]
    case Stale(i) => if i < |d.evidence| then [StaleReason(d.evidence[i])] else []
    case Denied => DeniedReasons(d.policies)
    case NoConstraints => [NoConstraintsReason()]
    case NoPlan => [NoPlanReason()]
    case Falsified => FailedReasons(d.findings)
  }

  function RejectStep(m: Run, cause: Cause): Run {
    m.(phase := Recording(DecisionRejected(CauseStatus(cause), m.docket.key, CauseReasons(m.docket, cause)), [], CacheRejection(cause)))
  }

  function Rejection(m: Run, cause: Cause): KernelResult {
    KernelResult(CauseStatus(cause), m.docket.key, Correlation(m.docket), None, None, CauseReasons(m.docket, cause), m.proofs, false)
  }

  // ----- The step -----

  datatype Point = Point(cache: Cache, run: Run)

  /** A recorder raised. Before delivery that aborts the run; afterwards the delivery result stands. */
  function RecorderFailed(cache: Cache, m: Run, next: Phase, exception: string): Point {
    if !next.Settle? then Point(cache, m.(phase := Raised))
    else if next.result.status.Proposed? then
      var r := next.result.(reasons := [UnrecordedReason(exception)]);
      Point(Put(cache, r), m.(phase := Finished(r, Unrecorded)))
    else Point(cache, m.(phase := Finished(next.result, Unrecorded)))
  }

  function RecordingStep(setup: Setup, cache: Cache, m: Run, a: Input): Point
    requires m.phase.Recording?
  {
    var Recording(event, receipts, next) := m.phase;
    if |receipts| < setup.recorders then
      match a
      case RecorderSays(Ok(r)) => Point(cache, m.(phase := Recording(event, receipts + [r], next)))
      case RecorderSays(Raise(x)) => RecorderFailed(cache, m, next, x)
      case _ => Point(cache, m)
    else
      Point(cache, m.(trail := m.trail + [Entry(event, receipts)], proofs := m.proofs + receipts, phase := next))
  }

  function DeliveryStep(cache: Cache, m: Run, signed: Signed, a: Input): Point {
    match a
    case SinkSays(answer) =>
      var r := DeliveryResult(m, signed, answer);
      Point(Put(cache, r), m.(phase := Recording(DeliveryEvent(signed, answer), [], Settle(r))))
    case _ => Point(cache, m)
  }

  function SettleStep(cache: Cache, m: Run, result: KernelResult): Point {
    var r := result.(proofs := m.proofs);
    Point(Put(cache, r), m.(phase := Finished(r, Settled)))
  }

  function CacheRejectionStep(cache: Cache, m: Run, cause: Cause): Point {
    var r := Rejection(m, cause);
    Point(Put(cache, r), m.(phase := Finished(r, Closed(cause))))
  }

  /** The steps that leave the cache alone. */
  function QuietStep(setup: Setup, cache: Cache, m: Run, a: Input): Run {
    match m.phase
    case Lookup => LookupStep(cache, m)
    case ReadClock => if a.ClockSays? then ClockStep(m, a.reading) else m
    case Evidence(i) => EvidenceStep(m, i)
    case Policy(i) => PolicyStep(setup, m, i, a)
    case Classify(i) => ClassifyStep(setup, m, i, a)
    case Classified(i) => ClassifiedStep(m, i)
    case Interpret => InterpretStep(m, a)
    case Planning => PlanningStep(setup, m, a)
    case Challenge(i) => ChallengeStep(setup, m, i, a)
    case Signing(package) => SigningStep(setup, m, package, a)
    case Reject(cause) => RejectStep(m, cause)
    case _ => m
  }

  /** One step of a run. An input that the program point does not wait for changes nothing. */
  function Step(setup: Setup, cache: Cache, m: Run, a: Input): Point {
    match m.phase
    case Recording(_, _, _) => RecordingStep(setup, cache, m, a)
    case Delivery(signed) => DeliveryStep(cache, m, signed, a)
    case Settle(result) => SettleStep(cache, m, result)
    case CacheRejection(cause) => CacheRejectionStep(cache, m, cause)
    case _ => Point(cache, QuietStep(setup, cache, m, a))
  }
}
