/** Delivery is a one-way door: what a run may have done to the replay cache, the signer
    and the proposal sink at each of its program points. */
module OneWayDoor {
  import opened Basics
  import opened Contracts
  import opened KernelMachine

  /** One package was offered, and the result accounts for it. */
  ghost predicate Accounts(key: string, offered: seq<Signed>, r: KernelResult) {
    && r.cycleKey == key && !r.replayed && |offered| == 1
    && r.signed == Some(offered[0])
    && (r.status.Proposed? || r.status.DeliveryUnknown?)
    && (r.status.Proposed? ==> r.receipt.Some?)
    && (r.receipt.Some? ==> (r.status.Proposed? <==> r.receipt.value.packageDigest == offered[0].digest))
    && (r.status.DeliveryUnknown? ==> |r.reasons| == 1)
  }

  /** What a run that stands at the given point has done, if the cache was `before` when it
      started: the packages it offered, whether it called the signer, and the cache now. */
  ghost predicate DoneAt(before: Cache, now: Cache, key: string, offered: seq<Signed>, signerCalled: bool, phase: Phase) {
    match phase
    case Lookup => now == before && offered == [] && !signerCalled
    case Raised => now == before && offered == []
    case Signing(_) => now == before && offered == [] && key !in before
    case Delivery(signed) => now == before && offered == [signed] && key !in before
    case Settle(r) =>
      key !in before && now == before[key := r] && Accounts(key, offered, r) && (r.status.Proposed? ==> r.reasons == [])
    case Recording(_, _, _) => false   // proof writes do not nest
    case Finished(r, Replayed) =>
      && now == before && offered == [] && !signerCalled
      && key in before && r == before[key].(replayed := true)
    case Finished(r, Closed(cause)) =>
      && key !in before && now == before[key := r] && r.cycleKey == key && !r.replayed
      && offered == [] && !signerCalled && r.signed.None? && r.status == CauseStatus(cause)
    case Finished(r, ending) =>
      && key !in before && now == before[key := r] && Accounts(key, offered, r)
      && (r.status.Proposed? ==> (r.reasons == [] <==> ending.Settled?))
    case _ => now == before && offered == [] && key !in before && !signerCalled
  }

  ghost predicate Done(before: Cache, now: Cache, m: Run) {
    && DoneAt(before, now, m.docket.key, m.offered, m.signerCalled, Target(m.phase))
    && (m.phase.Recording? ==> Resumes(m.phase.next))
  }

  ghost predicate Kept(before: Cache, m: Run, p: Point) {
    Done(before, p.cache, p.run) && p.run.docket.key == m.docket.key
  }

  lemma BeginDone(setup: Setup, cache: Cache, evidence: seq<Envelope>, scope: Scope)
    ensures Done(cache, cache, Begin(setup, evidence, scope))
  {
  }

  lemma PutTwice(before: Cache, key: string, r: KernelResult, r': KernelResult)
    requires r'.cycleKey == key && !r'.replayed
    ensures Put(before[key := r], r') == before[key := r']
  {
    assert r'.(replayed := false) == r';
  }

  lemma RecorderFailureDone(before: Cache, now: Cache, m: Run, next: Phase, exception: string)
    requires Resumes(next) && DoneAt(before, now, m.docket.key, m.offered, m.signerCalled, next)
    ensures Kept(before, m, RecorderFailed(now, m, next, exception))
  {
    if next.Settle? {
      PutTwice(before, m.docket.key, next.result, next.result.(reasons := [UnrecordedReason(exception)]));
    }
  }

  lemma RecordingDone(setup: Setup, before: Cache, now: Cache, m: Run, a: Input)
    requires m.phase.Recording? && Done(before, now, m)
    ensures Kept(before, m, RecordingStep(setup, now, m, a))
  {
    hide RecorderFailed, DoneAt;
    var Recording(event, receipts, next) := m.phase;
    if |receipts| < setup.recorders && a.RecorderSays? && a.written.Raise? {
      RecorderFailureDone(before, now, m, next, a.written.exception);
    }
  }

  lemma DeliveryAccounts(m: Run, signed: Signed, answer: Answer<ProposalReceipt>)
    ensures var r := DeliveryResult(m, signed, answer);
      && Accounts(m.docket.key, [signed], r) && r.(replayed := false) == r
      && (r.status.Proposed? ==> r.reasons == [])
  {
    hide UnknownReason, MismatchReason, Correlation;
  }

  lemma DeliveryDone(before: Cache, now: Cache, m: Run, signed: Signed, a: Input)
    requires m.phase == Delivery(signed) && Done(before, now, m)
    ensures Kept(before, m, DeliveryStep(now, m, signed, a))
  {
    hide DeliveryResult, DeliveryEvent;
    if a.SinkSays? {
      DeliveryAccounts(m, signed, a.receipt);
    }
  }

  lemma SettleDone(before: Cache, now: Cache, m: Run, result: KernelResult)
    requires m.phase == Settle(result) && Done(before, now, m)
    ensures Kept(before, m, SettleStep(now, m, result))
  {
    PutTwice(before, m.docket.key, result, result.(proofs := m.proofs));
  }

  lemma CacheRejectionDone(before: Cache, now: Cache, m: Run, cause: Cause)
    requires m.phase == CacheRejection(cause) && Done(before, now, m)
    ensures Kept(before, m, CacheRejectionStep(now, m, cause))
  {
    hide Accounts, CauseReasons, CauseStatus, Correlation;
    var r := Rejection(m, cause);
    assert r.(replayed := false) == r;
  }

  lemma EarlyDone(setup: Setup, before: Cache, now: Cache, m: Run, a: Input)
    requires m.phase.Lookup? || m.phase.ReadClock? || m.phase.Evidence? || m.phase.Policy? || m.phase.Classify?
    requires Done(before, now, m)
    ensures Kept(before, m, Point(now, QuietStep(setup, now, m, a)))
  {
    hide FreshAt, OneCorrelation, Distinct, AllAllowed, Inside, ConstraintsInside, Known, SortConstraints, Map;
    hide Accounts, ScopeReason, StaleReason, ObjectiveFits, PlanFits, CauseReasons;
  }

  lemma MiddleDone(setup: Setup, before: Cache, now: Cache, m: Run, a: Input)
    requires m.phase.Classified? || m.phase.Interpret? || m.phase.Planning? || m.phase.Reject?
    requires Done(before, now, m)
    ensures Kept(before, m, Point(now, QuietStep(setup, now, m, a)))
  {
    hide FreshAt, OneCorrelation, Distinct, AllAllowed, Inside, ConstraintsInside, Known, SortConstraints, Map;
    hide Accounts, ScopeReason, StaleReason, ObjectiveFits, PlanFits, CauseReasons;
  }

  lemma ChallengeDone(setup: Setup, before: Cache, now: Cache, m: Run, i: nat, a: Input)
    requires m.phase == Challenge(i) && Done(before, now, m)
    ensures Kept(before, m, Point(now, ChallengeStep(setup, m, i, a)))
  {
    hide Planned, RequiredChecks, Choice, FindingFits, AllSurvive, Coherent, BuildPackage, Accounts;
  }

  lemma SigningDone(setup: Setup, before: Cache, now: Cache, m: Run, package: Package, a: Input)
    requires m.phase == Signing(package) && Done(before, now, m)
    ensures Kept(before, m, Point(now, SigningStep(setup, m, package, a)))
  {
  }

  lemma QuietDone(setup: Setup, before: Cache, now: Cache, m: Run, a: Input)
    requires !m.phase.Recording? && !m.phase.Delivery? && !m.phase.Settle? && !m.phase.CacheRejection?
    requires Done(before, now, m)
    ensures Kept(before, m, Point(now, QuietStep(setup, now, m, a)))
  {
    hide BuildPackage, ClassifyStep, Coherent, EvidenceStep, RejectStep;
    if Terminal(m.phase) {
      return;
    }
    hide Kept;
    if m.phase.Challenge? {
      ChallengeDone(setup, before, now, m, m.phase.i, a);
    } else if m.phase.Signing? {
      SigningDone(setup, before, now, m, m.phase.package, a);
    } else if m.phase.Classified? || m.phase.Interpret? || m.phase.Planning? || m.phase.Reject? {
      MiddleDone(setup, before, now, m, a);
    } else {
      EarlyDone(setup, before, now, m, a);
    }
  }

  lemma LoudDone(setup: Setup, before: Cache, now: Cache, m: Run, a: Input)
    requires m.phase.Delivery? || m.phase.Settle? || m.phase.CacheRejection?
    requires Done(before, now, m)
    ensures Kept(before, m, Step(setup, now, m, a))
  {
    hide CacheRejectionStep, DeliveryStep, Done, Kept, SettleStep, QuietStep, RecordingStep;
    match m.phase
    case Delivery(signed) => DeliveryDone(before, now, m, signed, a);
    case Settle(result) => SettleDone(before, now, m, result);
    case CacheRejection(cause) => CacheRejectionDone(before, now, m, cause);
  }

  /** Every step of every run, whatever the ports answer, stays on the right side of the door. */
  lemma StepDone(setup: Setup, before: Cache, now: Cache, m: Run, a: Input)
    requires Done(before, now, m)
    ensures Kept(before, m, Step(setup, now, m, a))
  {
    hide CacheRejectionStep, ChallengeStep, DeliveryStep, EvidenceStep, RejectStep;
    if m.phase.Recording? {
      RecordingDone(setup, before, now, m, a);
    } else if m.phase.Delivery? || m.phase.Settle? || m.phase.CacheRejection? {
      LoudDone(setup, before, now, m, a);
    } else {
      QuietDone(setup, before, now, m, a);
    }
  }
}
