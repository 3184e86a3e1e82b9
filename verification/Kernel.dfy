/** The kernel itself: the methods that the host calls, with their loops and their mutable
    state, proved to walk the state machine to its end. */
module Kernel {
  import opened Basics
  import opened Order
  import opened Contracts
  import opened Signature
  import opened Registry
  import opened Cycle
  import opened KernelMachine
  import opened Gates
  import opened Runs
  import opened Guarantees
  import opened Lockstep

  class InMemoryReplayCache {
    var results: Cache

    constructor ()
      ensures results == map[]
    {
      results := map[];
    }

    method Get(cycleKey: string) returns (r: Option<KernelResult>)
      ensures r == if cycleKey in results then Some(results[cycleKey].(replayed := true)) else None
    {
      if cycleKey !in results {
        return None;
      }
      r := Some(results[cycleKey].(replayed := true));
    }

    method Put(result: KernelResult)
      modifies this
      ensures results == KernelMachine.Put(old(results), result)
    {
      results := results[result.cycleKey := result.(replayed := false)];
    }
  }

  /** How a call ends: with the result of a finished run, or with an exception. */
  ghost predicate Ends(answer: Answer<KernelResult>, m: Run) {
    match answer
    case Ok(r) => m.phase.Finished? && m.phase.result == r
    case Raise(_) => m.phase.Raised?
  }

  /** The machine stands at the given point, with what the method has in its variables. */
  ghost predicate At(m: Run, d: Docket, proofs: seq<string>, phase: Phase) {
    m.docket == d && m.proofs == proofs && m.phase == phase
  }

  class GovernanceKernel {
    const setup: Setup
    const ports: Ports
    const replayCache: InMemoryReplayCache

    /** The number of port calls so far; it stands for all that the host remembers. */
    var calls: nat

    constructor (setup: Setup, ports: Ports, replayCache: InMemoryReplayCache)
      ensures this.setup == setup && this.ports == ports && this.replayCache == replayCache && calls == 0
    {
      this.setup, this.ports, this.replayCache := setup, ports, replayCache;
      calls := 0;
    }

    /** From m, with that cache and after so many port calls, the kernel is now at m'. */
    ghost predicate Reached(cache: Cache, m: Run, calls: nat, m': Run)
      reads this, replayCache
    {
      Leads(setup, ports, cache, m, calls, replayCache.results, m', this.calls)
    }

    method Record(event: Event, correlationId: string, ghost m: Run, ghost next: Phase)
      returns (receipts: Answer<seq<string>>, ghost m': Run)
      requires m.phase == Recording(event, [], next) && Resumes(next) && correlationId == Correlation(m.docket)
      modifies this
      ensures receipts.Ok? ==> m' == Wrote(m, event, receipts.value, next) && Reached(replayCache.results, m, old(calls), m')
      ensures receipts.Raise? ==>
        var p := RecorderFailed(replayCache.results, m, next, receipts.exception);
        m' == p.run && Leads(setup, ports, replayCache.results, m, old(calls), p.cache, m', calls)
    {
      hide Drive, Holds, Lawful, Resumes, Correlation;
      var got: seq<string> := [];
      ghost var now := m;
      for i := 0 to setup.recorders
        invariant |got| == i && now == m.(phase := Recording(event, got, next))
        invariant Reached(replayCache.results, m, old(calls), now)
      {
        RecorderAsked(setup, ports, replayCache.results, now, calls);
        var r := ports.record(calls, i, event, correlationId);
        calls := calls + 1;
        if r.Raise? {
          return Raise(r.exception), RecorderFailed(replayCache.results, now, next, r.exception).run;
        }
        got := got + [r.value];
        now := m.(phase := Recording(event, got, next));
      }
      RecordersDone(setup, ports, replayCache.results, now, calls);
      return Ok(got), Wrote(m, event, got, next);
    }

    /** A proof write before delivery: a recorder that raises aborts the run. */
    method Append(event: Event, d: Docket, proofs: seq<string>, ghost m: Run, ghost next: Phase)
      returns (failed: Option<string>, proofs': seq<string>, ghost m': Run)
      requires At(m, d, proofs, Recording(event, [], next)) && Resumes(next) && !next.Settle?
      modifies this
      ensures Reached(replayCache.results, m, old(calls), m')
      ensures failed.Some? ==> m'.phase.Raised?
      ensures failed.None? ==> At(m', d, proofs', next)
    {
      hide Drive, Holds, Lawful, Resumes, Correlation, Leads;
      var receipts;
      receipts, m' := Record(event, Correlation(d), m, next);
      if receipts.Raise? {
        return Some(receipts.exception), proofs, m';
      }
      return None, proofs + receipts.value, m';
    }

    method Reject(status: KernelStatus, reasons: seq<string>, d: Docket, proofs: seq<string>, ghost m: Run, ghost cause: Cause)
      returns (answer: Answer<KernelResult>, ghost m': Run)
      requires At(m, d, proofs, KernelMachine.Reject(cause)) && status == CauseStatus(cause) && reasons == CauseReasons(d, cause)
      modifies this, replayCache
      ensures Reached(old(replayCache.results), m, old(calls), m') && Ends(answer, m')
    {
      hide Drive, Holds, Lawful, CauseStatus, CauseReasons, Correlation;
      RejectLeads(setup, ports, replayCache.results, m, calls, cause);
      var failed, receipts;
      failed, receipts, m' := Append(DecisionRejected(status, d.key, reasons), d, proofs, RejectStep(m, cause), CacheRejection(cause));
      if failed.Some? {
        return Raise(failed.value), m';
      }
      var result := KernelResult(status, d.key, Correlation(d), None, None, reasons, receipts, false);
      CacheRejectionLeads(setup, ports, replayCache.results, m', calls, cause);
      m' := CacheRejectionStep(replayCache.results, m', cause).run;
      replayCache.Put(result);
      answer := Ok(result);
    }

    // ----- The gates, in the order of the source -----

    /** Every item must be in scope and fresh; each one that is gets recorded as accepted. */
    method AcceptEvidence(d: Docket, ghost m: Run)
      returns (stop: Option<Answer<KernelResult>>, proofs: seq<string>, ghost m': Run)
      requires At(m, d, [], Evidence(0))
      modifies this, replayCache
      ensures Reached(old(replayCache.results), m, old(calls), m')
      ensures stop.Some? ==> Ends(stop.value, m')
      ensures stop.None? ==> At(m', d, proofs, Policy(0))
    {
      hide Drive, Holds, Lawful, Resumes, FreshAt, Correlation, ScopeReason, StaleReason;
      hide NoConstraintsReason, NoPlanReason, DeniedReasons, FailedReasons;
      proofs, m' := [], m;
      for i := 0 to |d.evidence|
        invariant At(m', d, proofs, Evidence(i)) && replayCache.results == old(replayCache.results)
        invariant Reached(old(replayCache.results), m, old(calls), m')
      {
        EvidenceLeads(setup, ports, replayCache.results, m', calls, i);
        m' := EvidenceStep(m', i);
        var item := d.evidence[i];
        if item.scope != d.scope {
          var answer;
          answer, m' := RejectEvidence(ScopeReason(), item.metadata.id, d, proofs, m', Foreign(i));
          return Some(answer), proofs, m';
        }
        if !FreshAt(item, d.now) {
          var answer;
          answer, m' := RejectEvidence(StaleReason(item), item.metadata.id, d, proofs, m', Stale(i));
          return Some(answer), proofs, m';
        }
        var failed;
        failed, proofs, m' := Append(EvidenceAccepted(item), d, proofs, m', Evidence(i + 1));
        if failed.Some? {
          return Some(Raise(failed.value)), proofs, m';
        }
      }
      EvidenceLeads(setup, ports, replayCache.results, m', calls, |d.evidence|);
      m' := EvidenceStep(m', |d.evidence|);
      stop := None;
    }

    method RejectEvidence(reason: string, evidenceId: string, d: Docket, proofs: seq<string>, ghost m: Run, ghost cause: Cause)
      returns (answer: Answer<KernelResult>, ghost m': Run)
      requires cause.Foreign? || cause.Stale?
      requires At(m, d, proofs, Recording(EvidenceRejected(reason, evidenceId), [], KernelMachine.Reject(cause)))
      requires CauseReasons(d, cause) == [reason]
      modifies this, replayCache
      ensures Reached(old(replayCache.results), m, old(calls), m') && Ends(answer, m')
    {
      hide Drive, Holds, Lawful, CauseReasons, Correlation;
      var failed, receipts;
      failed, receipts, m' := Append(EvidenceRejected(reason, evidenceId), d, proofs, m, KernelMachine.Reject(cause));
      if failed.Some? {
        return Raise(failed.value), m';
      }
      answer, m' := Reject(Declined, [reason], d, receipts, m', cause);
    }

    method AskPolicies(docket: Docket, receipts: seq<string>, ghost m: Run)
      returns (stop: Option<Answer<KernelResult>>, d: Docket, proofs: seq<string>, ghost m': Run)
      requires At(m, docket, receipts, Policy(0))
      modifies this
      ensures Reached(replayCache.results, m, old(calls), m')
      ensures stop.Some? ==> Ends(stop.value, m')
      ensures stop.None? ==> At(m', d, proofs, Policy(setup.policies))
    {
      hide Drive, Holds, Lawful, Resumes, Correlation, Inside, Known, Distinct, AllAllowed, DeniedReasons;
      d, proofs, m' := docket, receipts, m;
      for i := 0 to setup.policies
        invariant At(m', d, proofs, Policy(i))
        invariant Reached(replayCache.results, m, old(calls), m')
      {
        PolicyLeads(setup, ports, replayCache.results, m', calls, i);
        var r := ports.evaluate(calls, i, d.evidence, d.scope);
        m' := PolicyStep(setup, m', i, PolicySays(r));
        calls := calls + 1;
        if r.Raise? {
          return Some(Raise(r.exception)), d, proofs, m';
        }
        if !Inside(r.value.evidenceRefs, Known(d)) {
          return Some(Raise("ValueError")), d, proofs, m';
        }
        d := d.(policies := d.policies + [r.value]);
        var failed;
        failed, proofs, m' := Append(PolicyEvaluated(r.value), d, proofs, m', Policy(i + 1));
        if failed.Some? {
          return Some(Raise(failed.value)), d, proofs, m';
        }
      }
      stop := None;
    }

    method EvaluatePolicies(docket: Docket, receipts: seq<string>, ghost m: Run)
      returns (stop: Option<Answer<KernelResult>>, d: Docket, proofs: seq<string>, ghost m': Run)
      requires At(m, docket, receipts, Policy(0))
      modifies this, replayCache
      ensures Reached(old(replayCache.results), m, old(calls), m')
      ensures stop.Some? ==> Ends(stop.value, m')
      ensures stop.None? ==> At(m', d, proofs, Classify(0))
    {
      hide Drive, Holds, Lawful, Resumes, Correlation, Distinct, AllAllowed, NoConstraintsReason, NoPlanReason;
      hide ScopeReason, DeniedReasons, FailedReasons, StaleReason, Inside;
      stop, d, proofs, m' := AskPolicies(docket, receipts, m);
      if stop.Some? {
        return;
      }
      PoliciesLead(setup, ports, replayCache.results, m', calls, setup.policies);
      m' := PolicyStep(setup, m', setup.policies, Silent);
      if !AllAllowed(d.policies) {
        var answer;
        answer, m' := Reject(Declined, DeniedReasons(d.policies), d, proofs, m', Denied);
        return Some(answer), d, proofs, m';
      }
      if !Distinct(Map(CheckId, d.policies)) {
        return Some(Raise("ValueError")), d, proofs, m';
      }
    }

    /** The loop over what one classifier returned: a constraint that cites evidence outside the
        cycle ends the call, every other one is kept. */
    method KeepConstraints(d: Docket, classified: seq<Constraint>) returns (kept: Option<seq<Constraint>>)
      ensures kept.Some? <==> ConstraintsInside(classified, Known(d))
      ensures kept.Some? ==> kept.value == d.constraints + classified
    {
      hide Inside, Known;
      var constraints := d.constraints;
      for i := 0 to |classified|
        invariant constraints == d.constraints + classified[..i]
        invariant forall k :: 0 <= k < i ==> Inside(classified[k].evidenceRefs, Known(d))
      {
        if !Inside(classified[i].evidenceRefs, Known(d)) {
          return None;
        }
        constraints := constraints + [classified[i]];
      }
      kept := Some(constraints);
    }

    method AskClassifiers(docket: Docket, proofs: seq<string>, ghost m: Run)
      returns (stop: Option<Answer<KernelResult>>, d: Docket, ghost m': Run)
      requires At(m, docket, proofs, Classify(0))
      modifies this
      ensures Reached(replayCache.results, m, old(calls), m')
      ensures stop.Some? ==> Ends(stop.value, m')
      ensures stop.None? ==> At(m', d, proofs, Classify(setup.classifiers))
    {
      hide Drive, Holds, Lawful, Resumes, ConstraintsInside, Known, Distinct, SortConstraints;
      d, m' := docket, m;
      for i := 0 to setup.classifiers
        invariant At(m', d, proofs, Classify(i))
        invariant Reached(replayCache.results, m, old(calls), m')
      {
        ClassifierLeads(setup, ports, replayCache.results, m', calls, i);
        var classified := ports.classify(calls, i, d.evidence, d.policies, d.scope);
        m' := ClassifyStep(setup, m', i, ClassifierSays(classified));
        calls := calls + 1;
        if classified.Raise? {
          return Some(Raise(classified.exception)), d, m';
        }
        var kept := KeepConstraints(d, classified.value);
        if kept.None? {
          return Some(Raise("ValueError")), d, m';
        }
        d := d.(constraints := kept.value);
      }
      stop := None;
    }

    method ClassifyConstraints(docket: Docket, receipts: seq<string>, ghost m: Run)
      returns (stop: Option<Answer<KernelResult>>, d: Docket, proofs: seq<string>, ghost m': Run)
      requires At(m, docket, receipts, Classify(0))
      modifies this, replayCache
      ensures Reached(old(replayCache.results), m, old(calls), m')
      ensures stop.Some? ==> Ends(stop.value, m')
      ensures stop.None? ==> At(m', d, proofs, Interpret)
    {
      hide Drive, Holds, Lawful, Resumes, Correlation, Distinct, SortConstraints, NoConstraintsReason;
      hide NoPlanReason, ScopeReason, DeniedReasons, FailedReasons, StaleReason, ConstraintsInside;
      proofs := receipts;
      stop, d, m' := AskClassifiers(docket, proofs, m);
      if stop.Some? {
        return;
      }
      ClassifiersLead(setup, ports, replayCache.results, m', calls, setup.classifiers);
      m' := ClassifyStep(setup, m', setup.classifiers, Silent);
      if !Distinct(Map(ConstraintId, d.constraints)) {
        return Some(Raise("ValueError")), d, proofs, m';
      }
      if d.constraints == [] {
        var answer;
        answer, m' := Reject(KernelStatus.NoCandidate, [NoConstraintsReason()], d, proofs, m', NoConstraints);
        return Some(answer), d, proofs, m';
      }
      d := d.(constraints := SortConstraints(d.constraints));
      stop, proofs, m' := RecordConstraints(d, proofs, m');
    }

    method RecordConstraints(d: Docket, receipts: seq<string>, ghost m: Run)
      returns (stop: Option<Answer<KernelResult>>, proofs: seq<string>, ghost m': Run)
      requires At(m, d, receipts, Classified(0))
      modifies this
      ensures Reached(replayCache.results, m, old(calls), m')
      ensures stop.Some? ==> Ends(stop.value, m')
      ensures stop.None? ==> At(m', d, proofs, Interpret)
    {
      hide Drive, Holds, Lawful, Resumes, Correlation;
      proofs, m' := receipts, m;
      for i := 0 to |d.constraints|
        invariant At(m', d, proofs, Classified(i))
        invariant Reached(replayCache.results, m, old(calls), m')
      {
        ClassifiedLeads(setup, ports, replayCache.results, m', calls, i);
        m' := ClassifiedStep(m', i);
        var failed;
        failed, proofs, m' := Append(ConstraintClassified(d.constraints[i]), d, proofs, m', Classified(i + 1));
        if failed.Some? {
          return Some(Raise(failed.value)), proofs, m';
        }
      }
      ClassifiedLeads(setup, ports, replayCache.results, m', calls, |d.constraints|);
      m' := ClassifiedStep(m', |d.constraints|);
      stop := None;
    }

    method InterpretObjective(docket: Docket, receipts: seq<string>, ghost m: Run)
      returns (stop: Option<Answer<KernelResult>>, d: Docket, proofs: seq<string>, ghost m': Run)
      requires At(m, docket, receipts, Interpret)
      modifies this
      ensures Reached(replayCache.results, m, old(calls), m')
      ensures stop.Some? ==> Ends(stop.value, m')
      ensures stop.None? ==> At(m', d, proofs, Planning) && d.objective.Some?
    {
      hide Drive, Holds, Lawful, Resumes, Correlation, ObjectiveFits;
      d, proofs := docket, receipts;
      InterpreterLeads(setup, ports, replayCache.results, m, calls);
      var objective := ports.interpret(calls, d.constraints, d.policies, d.scope);
      m' := InterpretStep(m, InterpreterSays(objective));
      calls := calls + 1;
      if objective.Raise? {
        return Some(Raise(objective.exception)), d, proofs, m';
      }
      if !ObjectiveFits(d, objective.value) {
        return Some(Raise("ValueError")), d, proofs, m';
      }
      d := d.(objective := Some(objective.value));
      var failed;
      failed, proofs, m' := Append(ObjectiveInterpreted(objective.value), d, proofs, m', Planning);
      stop := if failed.Some? then Some(Raise(failed.value)) else None;
    }

    /** The loops over the plan: every candidate cites only what the cycle knows and is admitted
        by the registry; the selected one is cheapest, covers the hard constraints, and all the
        checks it needs are configured. */
    method PlanIsSound(d: Docket, o: Objective, plan: Plan) returns (sound: bool)
      ensures sound <==> PlanFits(setup, d, o, plan)
    {
      hide Inside, Known, Admitting, Cost, Selected, Covers;
      var constraintIds := Elements(Map(ConstraintId, d.constraints));
      for i := 0 to |plan.candidates|
        invariant CandidatesFit(setup, d, plan.candidates[..i])
      {
        var c := plan.candidates[i];
        if !Inside(c.evidenceRefs, Known(d)) || !Inside(c.constraintRefs, constraintIds)
           || Admitting(setup.definitions, setup.conforms, c).None?
        {
          assert c in plan.candidates;
          return false;
        }
        assert plan.candidates[..i + 1] == plan.candidates[..i] + [c];
      }
      assert plan.candidates[..|plan.candidates|] == plan.candidates;
      if plan.selectedId !in Map(CandidateId, plan.candidates) {
        return false;
      }
      var selected := Selected(plan.candidates, plan.selectedId);
      var cheapest := IsCheapest(o, selected, plan.candidates);
      if !cheapest || !Covers(selected, d.constraints) {
        return false;
      }
      var checks := Admitting(setup.definitions, setup.conforms, selected).value.checks;
      for i := 0 to |checks|
        invariant forall k :: 0 <= k < i ==> checks[k] in setup.checks
      {
        if checks[i] !in setup.checks {
          return false;
        }
      }
      sound := true;
    }

    /** All candidates have a cost, and none is below that of the selected one. */
    method IsCheapest(o: Objective, selected: Candidate, candidates: seq<Candidate>) returns (cheapest: bool)
      requires selected in candidates
      ensures cheapest <==> Priced(o, candidates) && Cheapest(o, selected, candidates)
    {
      hide Cost;
      var least := Cost(o, selected);
      for i := 0 to |candidates|
        invariant Priced(o, candidates[..i])
        invariant i > 0 ==> least.Some? && exists k :: 0 <= k < |candidates| && Cost(o, candidates[k]) == least
        invariant forall k :: 0 <= k < i ==> least.value <= Cost(o, candidates[k]).value
      {
        var cost := Cost(o, candidates[i]);
        if cost.None? {
          assert candidates[i] in candidates;
          return false;
        }
        if i == 0 || cost.value < least.value {
          least := cost;
        }
        assert candidates[..i + 1] == candidates[..i] + [candidates[i]];
      }
      assert candidates[..|candidates|] == candidates;
      cheapest := Cost(o, selected).value <= least.value;
    }

    lemma SoundPlansArePlanned(d: Docket, plan: Plan)
      requires d.objective.Some? && PlanFits(setup, d, d.objective.value, plan)
      ensures Planned(setup, d.(plan := Some(plan)))
    {
    }

    method ProposePlan(docket: Docket, proofs: seq<string>, ghost m: Run)
      returns (stop: Option<Answer<KernelResult>>, d: Docket, ghost m': Run)
      requires At(m, docket, proofs, Planning) && docket.objective.Some?
      modifies this, replayCache
      ensures Reached(old(replayCache.results), m, old(calls), m')
      ensures stop.Some? ==> Ends(stop.value, m')
      ensures stop.None? ==> At(m', d, proofs, Challenge(0)) && Planned(setup, d)
    {
      hide Drive, Holds, Lawful, Resumes, Correlation, PlanFits, Planned, NoConstraintsReason, NoPlanReason;
      hide ScopeReason, DeniedReasons, FailedReasons, StaleReason;
      d := docket;
      PlannerLeads(setup, ports, replayCache.results, m, calls);
      var plan := ports.propose(calls, d.evidence, d.policies, d.constraints, d.objective.value, d.scope);
      m' := PlanningStep(setup, m, PlannerSays(plan));
      calls := calls + 1;
      if plan.Raise? {
        return Some(Raise(plan.exception)), d, m';
      }
      if plan.value.None? {
        var answer;
        answer, m' := Reject(KernelStatus.NoCandidate, [NoPlanReason()], d, proofs, m', NoPlan);
        return Some(answer), d, m';
      }
      var sound := PlanIsSound(d, d.objective.value, plan.value.value);
      if !sound {
        return Some(Raise("ValueError")), d, m';
      }
      SoundPlansArePlanned(d, plan.value.value);
      d := d.(plan := Some(plan.value.value));
      stop := None;
    }

    lemma FindingsLeaveThePlan(d: Docket, f: Finding)
      requires Planned(setup, d)
      ensures var d' := d.(findings := d.findings + [f]);
        Planned(setup, d') && Choice(d') == Choice(d) && RequiredChecks(setup, d') == RequiredChecks(setup, d)
    {
      hide Admitting, Selected;
    }

    /** One pass of the loop over the required checks. */
    method AskCheck(docket: Docket, receipts: seq<string>, i: nat, selected: Candidate, check: string, ghost m: Run)
      returns (stop: Option<Answer<KernelResult>>, d: Docket, proofs: seq<string>, ghost m': Run)
      requires At(m, docket, receipts, Challenge(i)) && Planned(setup, docket) && selected == Choice(docket)
      requires i < |RequiredChecks(setup, docket)| && check == RequiredChecks(setup, docket)[i]
      modifies this
      ensures Reached(replayCache.results, m, old(calls), m')
      ensures stop.Some? ==> Ends(stop.value, m')
      ensures stop.None? ==>
        && Planned(setup, d) && Choice(d) == selected && RequiredChecks(setup, d) == RequiredChecks(setup, docket)
        && At(m', d, proofs, Challenge(i + 1))
    {
      hide Drive, Holds, Lawful, Resumes, Correlation, FindingFits, Selected, Admitting, ChallengeStep, Choice;
      hide RequiredChecks;
      d, proofs := docket, receipts;
      CheckLeads(setup, ports, replayCache.results, m, calls, i);
      var finding := ports.challenge(calls, check, selected, d.evidence, d.scope, d.now);
      CheckAnswered(setup, m, i, finding);
      m' := ChallengeStep(setup, m, i, CheckSays(finding));
      calls := calls + 1;
      if finding.Raise? {
        return Some(Raise(finding.exception)), d, proofs, m';
      }
      if !FindingFits(d, finding.value, selected.id, check) {
        return Some(Raise("ValueError")), d, proofs, m';
      }
      FindingsLeaveThePlan(d, finding.value);
      d := d.(findings := d.findings + [finding.value]);
      var failed;
      failed, proofs, m' := Append(FalsificationCompleted(finding.value), d, proofs, m', Challenge(i + 1));
      stop := if failed.Some? then Some(Raise(failed.value)) else None;
    }

    method AskChecks(docket: Docket, receipts: seq<string>, ghost m: Run)
      returns (stop: Option<Answer<KernelResult>>, d: Docket, proofs: seq<string>, ghost m': Run)
      requires At(m, docket, receipts, Challenge(0)) && Planned(setup, docket)
      modifies this
      ensures Reached(replayCache.results, m, old(calls), m')
      ensures stop.Some? ==> Ends(stop.value, m')
      ensures stop.None? ==> Planned(setup, d) && At(m', d, proofs, Challenge(|RequiredChecks(setup, d)|))
    {
      hide Drive, Holds, Lawful, Resumes, Selected, Admitting, Choice, RequiredChecks;
      d, proofs, m' := docket, receipts, m;
      var selected, checks := Choice(d), RequiredChecks(setup, d);
      for i := 0 to |checks|
        invariant At(m', d, proofs, Challenge(i))
        invariant Planned(setup, d) && Choice(d) == selected && RequiredChecks(setup, d) == checks
        invariant Reached(replayCache.results, m, old(calls), m')
      {
        stop, d, proofs, m' := AskCheck(d, proofs, i, selected, checks[i], m');
        if stop.Some? {
          return;
        }
      }
      stop := None;
    }

    method ChallengeSelected(docket: Docket, receipts: seq<string>, ghost m: Run)
      returns (stop: Option<Answer<KernelResult>>, d: Docket, proofs: seq<string>, package: Option<Package>, ghost m': Run)
      requires At(m, docket, receipts, Challenge(0)) && Planned(setup, docket)
      modifies this, replayCache
      ensures Reached(old(replayCache.results), m, old(calls), m')
      ensures stop.Some? ==> Ends(stop.value, m')
      ensures stop.None? ==> package.Some? && At(m', d, proofs, Signing(package.value))
    {
      hide Drive, Holds, Lawful, Resumes, Correlation, AllSurvive, Coherent, BuildPackage, Planned, Choice;
      hide RequiredChecks, DeniedReasons, FailedReasons, StaleReason, NoConstraintsReason, NoPlanReason;
      hide ScopeReason, FindingFits;
      package := None;
      stop, d, proofs, m' := AskChecks(docket, receipts, m);
      if stop.Some? {
        return;
      }
      ghost var n := |RequiredChecks(setup, d)|;
      ChecksLead(setup, ports, replayCache.results, m', calls, n);
      m' := ChallengeStep(setup, m', n, Silent);
      if !AllSurvive(d.findings) {
        var answer;
        answer, m' := Reject(Declined, FailedReasons(d.findings), d, proofs, m', Falsified);
        return Some(answer), d, proofs, package, m';
      }
      package := Some(BuildPackage(setup, d));
      if !Coherent(package.value) {
        stop := Some(Raise("ValidationError"));
      }
    }

    // ----- Delivery -----

    method SignAndDeliver(package: Package, d: Docket, proofs: seq<string>, ghost m: Run)
      returns (answer: Answer<KernelResult>, ghost m': Run)
      requires At(m, d, proofs, Signing(package))
      modifies this, replayCache
      ensures Reached(old(replayCache.results), m, old(calls), m') && Ends(answer, m')
    {
      hide Drive, Holds, Lawful, Resumes, Correlation, SignatureText, UnknownReason, MismatchReason;
      hide UnrecordedReason;
      SignerLeads(setup, ports, replayCache.results, m, calls, package);
      var signature := ports.sign(calls, package, setup.keyId);
      m' := SigningStep(setup, m, package, SignerSays(signature));
      calls := calls + 1;
      if signature.Raise? {
        return Raise(signature.exception), m';
      }
      if |signature.value| != 64 || !Sized(setup.keyId, 512) {
        return Raise("ValueError"), m';
      }
      var signed := Sealed(setup, package, signature.value);
      SinkLeads(setup, ports, replayCache.results, m', calls, signed);
      var receipt := ports.deliver(calls, signed);
      ghost var p := DeliveryStep(replayCache.results, m', signed, SinkSays(receipt));
      calls := calls + 1;
      if receipt.Raise? {
        var result := KernelResult(DeliveryUnknown, d.key, Correlation(d), Some(signed), None,
                                   [UnknownReason(receipt.exception)], proofs, false);
        replayCache.Put(result);
        answer, m' := Conclude(result, DeliveryUnresolved(signed.digest, None, UnknownReason(receipt.exception)), proofs, p.run);
      } else if receipt.value.packageDigest != signed.digest {
        var result := KernelResult(DeliveryUnknown, d.key, Correlation(d), Some(signed), Some(receipt.value),
                                   [MismatchReason()], proofs, false);
        replayCache.Put(result);
        answer, m' := Conclude(result, DeliveryUnresolved(signed.digest, Some(receipt.value), MismatchReason()), proofs, p.run);
      } else {
        var result := KernelResult(Proposed, d.key, Correlation(d), Some(signed), Some(receipt.value), [], proofs, false);
        replayCache.Put(result);
        answer, m' := Conclude(result, DecisionProposed(signed, receipt.value), proofs, p.run);
      }
    }

    /** The delivery result is cached already; the final proof write may still add its receipts. */
    method Conclude(result: KernelResult, event: Event, proofs: seq<string>, ghost m: Run)
      returns (answer: Answer<KernelResult>, ghost m': Run)
      requires m.phase == Recording(event, [], Settle(result)) && m.proofs == proofs
      requires result.correlationId == Correlation(m.docket)
      modifies this, replayCache
      ensures Reached(old(replayCache.results), m, old(calls), m') && Ends(answer, m')
    {
      hide Drive, Holds, Lawful, Correlation, UnrecordedReason;
      var receipts;
      receipts, m' := Record(event, result.correlationId, m, Settle(result));
      if receipts.Raise? {
        if result.status.Proposed? {
          var unrecorded := result.(reasons := [UnrecordedReason(receipts.exception)]);
          replayCache.Put(unrecorded);
          return Ok(unrecorded), m';
        }
        return Ok(result), m';
      }
      SettleLeads(setup, ports, replayCache.results, m', calls, result);
      m' := SettleStep(replayCache.results, m', result).run;
      var settled := result.(proofs := proofs + receipts.value);
      replayCache.Put(settled);
      answer := Ok(settled);
    }

    // ----- A call -----

    /** From the first gate to the end of the call. */
    method Decide(docket: Docket, ghost m: Run) returns (answer: Answer<KernelResult>, ghost m': Run)
      requires At(m, docket, [], Evidence(0))
      modifies this, replayCache
      ensures Reached(old(replayCache.results), m, old(calls), m') && Ends(answer, m')
    {
      hide Drive, Holds, Lawful, Resumes, Planned;
      var d, stop, proofs, package := docket, None, [], None;
      stop, proofs, m' := AcceptEvidence(d, m);
      if stop.Some? {
        return stop.value, m';
      }
      stop, d, proofs, m' := EvaluatePolicies(d, proofs, m');
      if stop.Some? {
        return stop.value, m';
      }
      stop, d, proofs, m' := ClassifyConstraints(d, proofs, m');
      if stop.Some? {
        return stop.value, m';
      }
      stop, d, proofs, m' := InterpretObjective(d, proofs, m');
      if stop.Some? {
        return stop.value, m';
      }
      stop, d, m' := ProposePlan(d, proofs, m');
      if stop.Some? {
        return stop.value, m';
      }
      stop, d, proofs, package, m' := ChallengeSelected(d, proofs, m');
      if stop.Some? {
        return stop.value, m';
      }
      answer, m' := SignAndDeliver(package.value, d, proofs, m');
    }

    method RunOnce(evidence: seq<Envelope>, scope: Scope) returns (answer: Answer<KernelResult>, ghost m: Run)
      modifies this, replayCache
      ensures Reached(old(replayCache.results), Begin(setup, evidence, scope), old(calls), m) && Ends(answer, m)
    {
      hide Drive, Holds, Lawful, Resumes, CycleKey, Arrange, OneCorrelation, Distinct;
      ArrangedSize(setup, evidence);
      m := Begin(setup, evidence, scope);
      LookupLeads(setup, ports, replayCache.results, m, calls);
      m := LookupStep(replayCache.results, m);
      if evidence == [] {
        return Raise("ValueError"), m;
      }
      var arranged := Arrange(setup.hash, evidence);
      var key := CycleKey(setup.hash, arranged, scope);
      var replay := replayCache.Get(key);
      if replay.Some? {
        return Ok(replay.value), m;
      }
      ClockLeads(setup, ports, replayCache.results, m, calls);
      var reading := ports.clock(calls);
      m := ClockStep(m, reading);
      calls := calls + 1;
      if reading.Raise? {
        return Raise(reading.exception), m;
      }
      if reading.value.Naive? || !OneCorrelation(arranged) || !Distinct(Map(IdentityOf, arranged)) {
        return Raise("ValueError"), m;
      }
      answer, m := Decide(Docket(key, arranged, scope, reading.value.at, [], [], None, None, []), m);
    }

    /** One call that holds the lock does exactly what the state machine does when the same ports
        drive it; in particular it always ends, and delivery is a one-way door. */
    method Run(evidence: seq<Envelope>, scope: Scope) returns (answer: Answer<KernelResult>, ghost m: Run)
      modifies this, replayCache
      ensures Call(setup, ports, old(replayCache.results), old(calls), evidence, scope) == Outcome(replayCache.results, m, calls)
      ensures Ends(answer, m)
      ensures Lawful(ports) ==> OneWay(CycleKey(setup.hash, evidence, scope), old(replayCache.results), replayCache.results, m)
    {
      hide Drive, Holds, Lawful, Resumes, CycleKey, Arrange, OneWay;
      answer, m := RunOnce(evidence, scope);
      NothingFollows(setup, ports, replayCache.results, m, calls);
      if Lawful(ports) {
        DeliveryIsAOneWayDoor(setup, ports, old(replayCache.results), old(calls), evidence, scope);
      }
    }
  }
}
