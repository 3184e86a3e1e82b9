/** Any number of concurrent calls on one kernel and one event loop. A scheduler starts calls,
    lets a waiting one take the lock, and moves running ones on, in any order; the ports
    answer whatever they like, or raise. */
module Interleaving {
  import opened Basics
  import opened Contracts
  import opened Cycle
  import opened KernelMachine
  import opened OneWayDoor
  import opened Runs
  import opened Guarantees

  datatype Submission = Submission(evidence: seq<Envelope>, scope: Scope)

  /** A running task remembers the cache that it found when it took the lock. */
  datatype Task =
    | Waiting(submission: Submission)
    | Running(submission: Submission, found: Cache, run: Run)
    | Ended(submission: Submission, run: Run)

  /** What reached the sink: which task offered it, under which cycle key. */
  datatype Offer = Offer(task: nat, key: string, signed: Signed)

  datatype World = World(cache: Cache, lock: Option<nat>, tasks: seq<Task>, offers: seq<Offer>)

  datatype Act =
    | Spawn(submission: Submission)
    | Enter(task: nat)
    | Advance(task: nat, answer: Input)
    | Leave(task: nat)

  /** What the sink receives in a step. */
  function NewOffers(t: nat, m: Run, m': Run): seq<Offer> {
    if |m'.offered| > |m.offered| then [Offer(t, m.docket.key, m'.offered[|m'.offered| - 1])] else []
  }

  function EnterTask(setup: Setup, w: World, t: nat): World
    requires t < |w.tasks|
  {
    var submission := w.tasks[t].submission;
    w.(lock := Some(t), tasks := w.tasks[t := Running(submission, w.cache, Begin(setup, submission.evidence, submission.scope))])
  }

  /** The running task t took a step, which left the cache and the run at p. */
  function AdvanceTask(w: World, t: nat, p: Point): World
    requires t < |w.tasks| && w.tasks[t].Running?
  {
    w.(cache := p.cache, tasks := w.tasks[t := w.tasks[t].(run := p.run)],
       offers := w.offers + NewOffers(t, w.tasks[t].run, p.run))
  }

  function LeaveTask(w: World, t: nat): World
    requires t < |w.tasks| && w.tasks[t].Running?
  {
    w.(lock := None, tasks := w.tasks[t := Ended(w.tasks[t].submission, w.tasks[t].run)])
  }

  /** An act that is not possible changes nothing. */
  function Exec(setup: Setup, w: World, act: Act): World {
    match act
    case Spawn(submission) => w.(tasks := w.tasks + [Waiting(submission)])
    case Enter(t) => if t < |w.tasks| && w.tasks[t].Waiting? && w.lock.None? then EnterTask(setup, w, t) else w
    case Advance(t, answer) =>
      if t < |w.tasks| && w.tasks[t].Running? then AdvanceTask(w, t, Step(setup, w.cache, w.tasks[t].run, answer)) else w
    case Leave(t) =>
      if t < |w.tasks| && w.tasks[t].Running? && Terminal(w.tasks[t].run.phase) then LeaveTask(w, t) else w
  }

  function Execute(setup: Setup, w: World, acts: seq<Act>): World {
    if acts == [] then w else Exec(setup, Execute(setup, w, acts[..|acts| - 1]), acts[|acts| - 1])
  }

  function Idle(cache: Cache): World {
    World(cache, None, [], [])
  }

  // ----- The invariant -----

  /** The results of the calls that have left the lock. */
  function Settled(w: World): Cache {
    if w.lock.Some? && w.lock.value < |w.tasks| && w.tasks[w.lock.value].Running? then w.tasks[w.lock.value].found
    else w.cache
  }

  ghost predicate Clean(cache: Cache) {
    forall key :: key in cache ==> !cache[key].replayed
  }

  predicate Keyed(setup: Setup, submission: Submission, m: Run) {
    m.docket.key == CycleKey(setup.hash, submission.evidence, submission.scope)
  }

  predicate Returned(task: Task) {
    task.Ended? && task.run.phase.Finished?
  }

  predicate Fresh(task: Task) {
    Returned(task) && !task.run.phase.result.replayed
  }

  predicate FreshFor(task: Task, key: string) {
    Fresh(task) && task.run.docket.key == key
  }

  /** What is true of a single task in a world with this lock, cache and settled results. */
  ghost predicate TaskSafe(setup: Setup, lock: Option<nat>, now: Cache, settled: Cache, t: nat, task: Task) {
    match task
    case Waiting(_) => true
    case Running(submission, found, m) =>
      lock == Some(t) && found == settled && Done(found, now, m) && Keyed(setup, submission, m)
    case Ended(submission, m) =>
      && Keyed(setup, submission, m)
      && (m.phase.Finished? ==> m.docket.key in settled && settled[m.docket.key] == m.phase.result.(replayed := false))
  }

  ghost predicate TasksSafe(setup: Setup, w: World) {
    && (w.lock.Some? ==> w.lock.value < |w.tasks| && w.tasks[w.lock.value].Running?)
    && forall t :: 0 <= t < |w.tasks| ==> TaskSafe(setup, w.lock, w.cache, Settled(w), t, w.tasks[t])
  }

  /** The task that made the offer is still running, or has returned it with its result. */
  ghost predicate OfferSafe(tasks: seq<Task>, o: Offer) {
    && o.task < |tasks| && !tasks[o.task].Waiting?
    && tasks[o.task].run.docket.key == o.key && tasks[o.task].run.offered == [o.signed]
    && (tasks[o.task].Ended? ==> Fresh(tasks[o.task]) && tasks[o.task].run.phase.result.signed == Some(o.signed))
  }

  function OfferKey(o: Offer): string { o.key }

  ghost predicate OffersSafe(w: World) {
    Distinct(Map(OfferKey, w.offers)) && forall o :: o in w.offers ==> OfferSafe(w.tasks, o)
  }

  /** Every settled cycle that was not cached at the start has been worked out by exactly one
      task; the others replayed it. */
  ghost predicate WorkedOutOnce(initial: Cache, settled: Cache, tasks: seq<Task>) {
    && (forall t, u :: 0 <= t < u < |tasks| && Fresh(tasks[t]) && Fresh(tasks[u]) ==>
          tasks[t].run.docket.key != tasks[u].run.docket.key)
    && (forall t :: 0 <= t < |tasks| && Fresh(tasks[t]) ==>
          tasks[t].run.docket.key in settled && tasks[t].run.docket.key !in initial)
    && (forall key :: key in settled && key !in initial ==> WorkedOut(tasks, key))
  }

  ghost predicate WorkedOut(tasks: seq<Task>, key: string) {
    exists t :: 0 <= t < |tasks| && FreshFor(tasks[t], key)
  }

  ghost predicate Safe(setup: Setup, initial: Cache, w: World) {
    && TasksSafe(setup, w) && OffersSafe(w) && WorkedOutOnce(initial, Settled(w), w.tasks)
    && Clean(Settled(w)) && Extends(initial, Settled(w))
  }

  // ----- Every act keeps it -----

  lemma UnfinishedTaskAdded(initial: Cache, settled: Cache, tasks: seq<Task>, x: Task)
    requires WorkedOutOnce(initial, settled, tasks) && !Fresh(x)
    ensures WorkedOutOnce(initial, settled, tasks + [x])
  {
    hide Fresh;
    forall key | key in settled && key !in initial ensures WorkedOut(tasks + [x], key) {
      var t :| 0 <= t < |tasks| && FreshFor(tasks[t], key);
      assert (tasks + [x])[t] == tasks[t];
    }
  }

  lemma UnfinishedTaskChanged(initial: Cache, settled: Cache, tasks: seq<Task>, t: nat, x: Task)
    requires WorkedOutOnce(initial, settled, tasks) && t < |tasks| && !Fresh(tasks[t]) && !Fresh(x)
    ensures WorkedOutOnce(initial, settled, tasks[t := x])
  {
    hide Fresh;
    forall key | key in settled && key !in initial ensures WorkedOut(tasks[t := x], key) {
      var u :| 0 <= u < |tasks| && FreshFor(tasks[u], key);
      assert tasks[t := x][u] == tasks[u];
    }
  }

  lemma TaskFinished(initial: Cache, settled: Cache, tasks: seq<Task>, t: nat, x: Task)
    requires WorkedOutOnce(initial, settled, tasks) && t < |tasks| && !Fresh(tasks[t])
    requires Fresh(x) && x.run.docket.key !in settled && Extends(initial, settled)
    ensures WorkedOutOnce(initial, settled[x.run.docket.key := x.run.phase.result], tasks[t := x])
  {
    var settled' := settled[x.run.docket.key := x.run.phase.result];
    hide Fresh;
    forall key | key in settled' && key !in initial ensures WorkedOut(tasks[t := x], key) {
      if key == x.run.docket.key {
        assert tasks[t := x][t] == x;
      } else {
        var u :| 0 <= u < |tasks| && FreshFor(tasks[u], key);
        assert tasks[t := x][u] == tasks[u];
      }
    }
  }

  lemma SpawnTasks(setup: Setup, w: World, submission: Submission)
    requires TasksSafe(setup, w)
    ensures var w' := w.(tasks := w.tasks + [Waiting(submission)]); TasksSafe(setup, w') && Settled(w') == Settled(w)
  {
    hide Done, Keyed;
    var w' := w.(tasks := w.tasks + [Waiting(submission)]);
    assert forall t :: 0 <= t < |w.tasks| ==> w'.tasks[t] == w.tasks[t];
  }

  lemma SpawnOffers(w: World, submission: Submission)
    requires OffersSafe(w)
    ensures OffersSafe(w.(tasks := w.tasks + [Waiting(submission)]))
  {
    hide Fresh, Distinct, Map;
    forall o | o in w.offers ensures OfferSafe(w.tasks + [Waiting(submission)], o) {
      assert OfferSafe(w.tasks, o) && (w.tasks + [Waiting(submission)])[o.task] == w.tasks[o.task];
    }
  }

  lemma SpawnSafe(setup: Setup, initial: Cache, w: World, submission: Submission)
    requires Safe(setup, initial, w)
    ensures Safe(setup, initial, Exec(setup, w, Spawn(submission)))
    ensures Settled(Exec(setup, w, Spawn(submission))) == Settled(w)
  {
    hide TasksSafe, OffersSafe, WorkedOutOnce, Clean, Extends, Settled, EnterTask, AdvanceTask, LeaveTask, Step;
    hide Terminal;
    SpawnTasks(setup, w, submission);
    SpawnOffers(w, submission);
    UnfinishedTaskAdded(initial, Settled(w), w.tasks, Waiting(submission));
  }

  lemma EnterSafe(setup: Setup, initial: Cache, w: World, t: nat)
    requires Safe(setup, initial, w) && t < |w.tasks| && w.tasks[t].Waiting? && w.lock.None?
    ensures Safe(setup, initial, EnterTask(setup, w, t)) && Settled(EnterTask(setup, w, t)) == Settled(w)
  {
    var w' := EnterTask(setup, w, t);
    UnfinishedTaskChanged(initial, Settled(w), w.tasks, t, w'.tasks[t]);
    var submission := w.tasks[t].submission;
    BeginDone(setup, w.cache, submission.evidence, submission.scope);
    ArrangedKey(setup.hash, submission.evidence, submission.scope);
    hide WorkedOutOnce, Done, CycleKey, Clean, Extends, Fresh, Arrange;
    assert forall u :: 0 <= u < |w.tasks| && u != t ==> w'.tasks[u] == w.tasks[u];
  }

  lemma QuietKeepsOffers(setup: Setup, cache: Cache, m: Run, a: Input)
    ensures m.offered <= QuietStep(setup, cache, m, a).offered
  {
    hide AllAllowed, AllSurvive, BuildPackage, CauseReasons, CauseStatus, CheckId, Choice, Coherent;
    hide ConstraintId, ConstraintsInside, Distinct, FindingFits, FreshAt, IdentityOf, Inside, Known, Map;
    hide ObjectiveFits, OneCorrelation, PlanFits, Planned, RequiredChecks, ScopeReason, Sealed, Sized;
    hide SortConstraints, StaleReason;
  }

  lemma StepKeepsOffers(setup: Setup, cache: Cache, m: Run, a: Input)
    ensures m.offered <= Step(setup, cache, m, a).run.offered
  {
    hide QuietStep, DeliveryEvent, DeliveryResult, Put, Rejection, UnrecordedReason;
    QuietKeepsOffers(setup, cache, m, a);
  }

  /** A run offers at most one package, and only for a cycle that was not cached. */
  lemma OfferedAtMostOne(found: Cache, now: Cache, m: Run)
    requires Done(found, now, m)
    ensures |m.offered| <= 1 && (m.offered != [] ==> m.docket.key !in found)
  {
  }

  /** What the lock holder leaves behind when it ends. */
  lemma EndedDone(found: Cache, now: Cache, m: Run)
    requires Done(found, now, m) && Terminal(m.phase)
    ensures m.phase.Raised? ==> now == found && m.offered == []
    ensures m.phase.Finished? && m.phase.ending.Replayed? ==>
              && now == found && m.offered == []
              && m.docket.key in found && m.phase.result == found[m.docket.key].(replayed := true)
    ensures m.phase.Finished? && !m.phase.ending.Replayed? ==>
              && m.docket.key !in found && now == found[m.docket.key := m.phase.result] && !m.phase.result.replayed
              && (m.offered != [] ==> |m.offered| == 1 && m.phase.result.signed == Some(m.offered[0]))
  {
  }

  lemma OneMoreOffer(offers: seq<Offer>, o: Offer)
    requires Distinct(Map(OfferKey, offers)) && forall x :: x in offers ==> x.key != o.key
    ensures Distinct(Map(OfferKey, offers + [o]))
  {
    var keys := Map(OfferKey, offers);
    assert Map(OfferKey, offers + [o]) == keys + [o.key];
    assert forall k :: 0 <= k < |keys| ==> keys[k] == offers[k].key;
  }

  /** Offers of other tasks, and of a run that goes on, stay accounted for. */
  lemma OldOfferSafe(tasks: seq<Task>, t: nat, m': Run, o: Offer)
    requires t < |tasks| && tasks[t].Running? && OfferSafe(tasks, o)
    requires tasks[t].run.offered <= m'.offered && |m'.offered| <= 1 && m'.docket.key == tasks[t].run.docket.key
    ensures OfferSafe(tasks[t := tasks[t].(run := m')], o)
  {
    if o.task == t {
      assert m'.offered[0] == tasks[t].run.offered[0];
      assert m'.offered == [o.signed];
    } else {
      assert tasks[t := tasks[t].(run := m')][o.task] == tasks[o.task];
    }
  }

  lemma AdvanceOffers(w: World, t: nat, p: Point)
    requires t < |w.tasks| && w.tasks[t].Running? && OffersSafe(w)
    requires w.tasks[t].run.offered <= p.run.offered && |p.run.offered| <= 1
    requires forall u :: 0 <= u < |w.tasks| && w.tasks[u].Running? ==> u == t
    requires p.run.docket.key == w.tasks[t].run.docket.key
    requires |p.run.offered| > |w.tasks[t].run.offered| ==>
               forall u :: 0 <= u < |w.tasks| && Fresh(w.tasks[u]) ==> w.tasks[u].run.docket.key != p.run.docket.key
    ensures OffersSafe(AdvanceTask(w, t, p))
  {
    hide Fresh, OfferSafe, Distinct, Map;
    var w' := AdvanceTask(w, t, p);
    forall o | o in w.offers ensures OfferSafe(w'.tasks, o) {
      OldOfferSafe(w.tasks, t, p.run, o);
    }
    var news := NewOffers(t, w.tasks[t].run, p.run);
    if news == [] {
      assert w'.offers == w.offers;
    } else {
      forall o | o in w.offers ensures o.key != news[0].key {
        OfferElsewhere(w.tasks, t, p.run.docket.key, o);
      }
      OneMoreOffer(w.offers, news[0]);
      NewOfferSafe(w.tasks, t, p.run);
    }
  }

  lemma OfferElsewhere(tasks: seq<Task>, t: nat, key: string, o: Offer)
    requires t < |tasks| && tasks[t].Running? && tasks[t].run.offered == [] && OfferSafe(tasks, o)
    requires forall u :: 0 <= u < |tasks| && Fresh(tasks[u]) ==> tasks[u].run.docket.key != key
    requires forall u :: 0 <= u < |tasks| && tasks[u].Running? ==> u == t
    ensures o.key != key
  {
    hide Fresh;
  }

  lemma NewOfferSafe(tasks: seq<Task>, t: nat, m': Run)
    requires t < |tasks| && tasks[t].Running? && |m'.offered| == 1
    ensures OfferSafe(tasks[t := tasks[t].(run := m')], Offer(t, m'.docket.key, m'.offered[0]))
  {
    hide Fresh;
  }

  lemma AdvanceTasks(setup: Setup, w: World, t: nat, p: Point)
    requires TasksSafe(setup, w) && t < |w.tasks| && w.tasks[t].Running?
    requires Done(w.tasks[t].found, p.cache, p.run) && p.run.docket.key == w.tasks[t].run.docket.key
    ensures TasksSafe(setup, AdvanceTask(w, t, p)) && Settled(AdvanceTask(w, t, p)) == Settled(w)
  {
    hide Done, CycleKey, NewOffers;
    var w' := AdvanceTask(w, t, p);
    assert w.lock == Some(t);
    assert forall u :: 0 <= u < |w.tasks| && u != t ==> w'.tasks[u] == w.tasks[u] && !w.tasks[u].Running?;
  }

  lemma AdvanceSafe(setup: Setup, initial: Cache, w: World, t: nat, answer: Input)
    requires Safe(setup, initial, w) && t < |w.tasks| && w.tasks[t].Running?
    ensures var w' := AdvanceTask(w, t, Step(setup, w.cache, w.tasks[t].run, answer));
      Safe(setup, initial, w') && Settled(w') == Settled(w)
  {
    hide Done, Step, Keyed, OffersSafe, WorkedOutOnce, Clean, Extends;
    var found, m := w.tasks[t].found, w.tasks[t].run;
    var p := Step(setup, w.cache, m, answer);
    assert TaskSafe(setup, w.lock, w.cache, Settled(w), t, w.tasks[t]);
    StepDone(setup, found, w.cache, m, answer);
    StepKeepsOffers(setup, w.cache, m, answer);
    OfferedAtMostOne(found, p.cache, p.run);
    AdvanceTasks(setup, w, t, p);
    UnfinishedTaskChanged(initial, Settled(w), w.tasks, t, w.tasks[t].(run := p.run));
    WorkedOutIsSettled(initial, Settled(w), w.tasks);
    AdvanceOffers(w, t, p);
  }

  lemma WorkedOutIsSettled(initial: Cache, settled: Cache, tasks: seq<Task>)
    requires WorkedOutOnce(initial, settled, tasks)
    ensures forall u :: 0 <= u < |tasks| && Fresh(tasks[u]) ==> tasks[u].run.docket.key in settled
  {
  }

  lemma LeaveTasks(setup: Setup, w: World, t: nat)
    requires TasksSafe(setup, w) && t < |w.tasks| && w.tasks[t].Running? && Terminal(w.tasks[t].run.phase) && Clean(Settled(w))
    ensures var m := w.tasks[t].run;
      && TasksSafe(setup, LeaveTask(w, t)) && Settled(w) == w.tasks[t].found && Settled(LeaveTask(w, t)) == w.cache
      && (m.phase.Raised? || m.phase.result.replayed ==> w.cache == Settled(w))
      && (m.phase.Finished? && !m.phase.result.replayed ==>
            m.docket.key !in Settled(w) && w.cache == Settled(w)[m.docket.key := m.phase.result])
  {
    hide Done, CycleKey;
    var w' := LeaveTask(w, t);
    assert TaskSafe(setup, w.lock, w.cache, Settled(w), t, w.tasks[t]);
    EndedDone(w.tasks[t].found, w.cache, w.tasks[t].run);
    assert forall u :: 0 <= u < |w.tasks| && u != t ==> w'.tasks[u] == w.tasks[u] && !w.tasks[u].Running?;
  }

  lemma LeaveOffers(setup: Setup, w: World, t: nat)
    requires TasksSafe(setup, w) && OffersSafe(w) && t < |w.tasks| && w.tasks[t].Running? && Terminal(w.tasks[t].run.phase)
    ensures OffersSafe(LeaveTask(w, t))
  {
    hide Done, CycleKey, Distinct, Map;
    var w' := LeaveTask(w, t);
    assert TaskSafe(setup, w.lock, w.cache, Settled(w), t, w.tasks[t]);
    EndedDone(w.tasks[t].found, w.cache, w.tasks[t].run);
    forall o | o in w.offers ensures OfferSafe(w'.tasks, o) {
      assert OfferSafe(w.tasks, o);
      assert o.task != t ==> w'.tasks[o.task] == w.tasks[o.task];
    }
  }

  lemma LeaveSafe(setup: Setup, initial: Cache, w: World, t: nat)
    requires Safe(setup, initial, w) && t < |w.tasks| && w.tasks[t].Running? && Terminal(w.tasks[t].run.phase)
    ensures Safe(setup, initial, LeaveTask(w, t)) && Extends(Settled(w), Settled(LeaveTask(w, t)))
  {
    hide TasksSafe, OffersSafe, WorkedOutOnce;
    LeaveTasks(setup, w, t);
    LeaveOffers(setup, w, t);
    var x := Ended(w.tasks[t].submission, w.tasks[t].run);
    if Fresh(x) {
      TaskFinished(initial, Settled(w), w.tasks, t, x);
    } else {
      UnfinishedTaskChanged(initial, Settled(w), w.tasks, t, x);
    }
  }

  lemma ExecSafe(setup: Setup, initial: Cache, w: World, act: Act)
    requires Safe(setup, initial, w)
    ensures Safe(setup, initial, Exec(setup, w, act)) && Extends(Settled(w), Settled(Exec(setup, w, act)))
  {
    hide Safe, Settled, Step, EnterTask, AdvanceTask, LeaveTask, Terminal;
    match act
    case Spawn(submission) => SpawnSafe(setup, initial, w, submission);
    case Enter(t) =>
      if t < |w.tasks| && w.tasks[t].Waiting? && w.lock.None? {
        EnterSafe(setup, initial, w, t);
      }
    case Advance(t, answer) =>
      if t < |w.tasks| && w.tasks[t].Running? {
        AdvanceSafe(setup, initial, w, t, answer);
      }
    case Leave(t) =>
      if t < |w.tasks| && w.tasks[t].Running? && Terminal(w.tasks[t].run.phase) {
        LeaveSafe(setup, initial, w, t);
      }
  }

  lemma {:induction false} ExecuteSafe(setup: Setup, cache: Cache, acts: seq<Act>)
    requires Clean(cache)
    ensures Safe(setup, cache, Execute(setup, Idle(cache), acts))
  {
    hide Exec, Safe;
    if acts == [] {
      IdleSafe(setup, cache);
    } else {
      ExecuteSafe(setup, cache, acts[..|acts| - 1]);
      ExecSafe(setup, cache, Execute(setup, Idle(cache), acts[..|acts| - 1]), acts[|acts| - 1]);
    }
  }

  lemma IdleSafe(setup: Setup, cache: Cache)
    requires Clean(cache)
    ensures Safe(setup, cache, Idle(cache))
  {
  }

  // ----- Over every interleaving -----

  /** However the calls are interleaved, and whatever sinks and recorders do, the sink is
      offered at most one package per cycle key, and none for a cycle that was cached before.
      Whatever was offered is in the hands of the running call, or in the result that the
      offering call returned. */
  lemma AtMostOneOfferPerCycle(setup: Setup, cache: Cache, acts: seq<Act>)
    requires Clean(cache)
    ensures var w := Execute(setup, Idle(cache), acts);
      && (forall i, j :: 0 <= i < j < |w.offers| ==> w.offers[i].key != w.offers[j].key)
      && (forall o :: o in w.offers ==> OfferSafe(w.tasks, o) && o.key !in cache)
  {
    hide Execute, CycleKey, Extends, Clean;
    var w := Execute(setup, Idle(cache), acts);
    ExecuteSafe(setup, cache, acts);
    OffersDistinct(w.offers);
    forall o | o in w.offers ensures o.key !in cache {
      OfferIsNew(setup, cache, w, o);
    }
  }

  lemma OffersDistinct(offers: seq<Offer>)
    requires Distinct(Map(OfferKey, offers))
    ensures forall i, j :: 0 <= i < j < |offers| ==> offers[i].key != offers[j].key
  {
    var keys := Map(OfferKey, offers);
    assert forall k :: 0 <= k < |keys| ==> keys[k] == offers[k].key;
  }

  lemma OfferIsNew(setup: Setup, cache: Cache, w: World, o: Offer)
    requires Safe(setup, cache, w) && o in w.offers
    ensures o.key !in cache
  {
    hide CycleKey, Done;
    assert OfferSafe(w.tasks, o);
    if w.tasks[o.task].Running? {
      assert TaskSafe(setup, w.lock, w.cache, Settled(w), o.task, w.tasks[o.task]);
      OfferedAtMostOne(w.tasks[o.task].found, w.cache, w.tasks[o.task].run);
    }
  }

  ghost predicate Agreed(cache: Cache, tasks: seq<Task>, t: nat, u: nat)
    requires t < |tasks| && u < |tasks| && Returned(tasks[t]) && Returned(tasks[u])
  {
    && tasks[t].run.phase.result.(replayed := false) == tasks[u].run.phase.result.(replayed := false)
    && !(Fresh(tasks[t]) && Fresh(tasks[u]))
    && (tasks[t].run.docket.key !in cache ==> WorkedOut(tasks, tasks[t].run.docket.key))
  }

  /** Both calls returned; they had the same evidence, in some order, and the same scope. */
  predicate SameReturned(a: Task, b: Task) {
    && Returned(a) && Returned(b)
    && multiset(a.submission.evidence) == multiset(b.submission.evidence) && a.submission.scope == b.submission.scope
  }

  lemma SettledTasksAgree(setup: Setup, cache: Cache, w: World, t: nat, u: nat)
    requires Safe(setup, cache, w) && t < u < |w.tasks| && SameReturned(w.tasks[t], w.tasks[u])
    ensures Agreed(cache, w.tasks, t, u)
  {
    hide CycleKey, OffersSafe, Clean, Extends, WorkedOut;
    var a, b := w.tasks[t].submission, w.tasks[u].submission;
    CycleKeyIgnoresOrder(setup.hash, a.evidence, b.evidence, a.scope);
    assert TaskSafe(setup, w.lock, w.cache, Settled(w), t, w.tasks[t]);
    assert TaskSafe(setup, w.lock, w.cache, Settled(w), u, w.tasks[u]);
  }

  /** Any two calls with the same evidence and scope that returned agree up to the replay mark,
      and at most one of them is not a replay; if the cycle was not cached before, one is not. */
  lemma ReturnedCallsAgree(setup: Setup, cache: Cache, acts: seq<Act>)
    requires Clean(cache)
    ensures var tasks := Execute(setup, Idle(cache), acts).tasks;
      forall t: nat, u: nat :: t < u < |tasks| && SameReturned(tasks[t], tasks[u]) ==> Agreed(cache, tasks, t, u)
  {
    hide Execute, Agreed, Returned;
    var w := Execute(setup, Idle(cache), acts);
    ExecuteSafe(setup, cache, acts);
    forall t: nat, u: nat | t < u < |w.tasks| && SameReturned(w.tasks[t], w.tasks[u])
      ensures Agreed(cache, w.tasks, t, u)
    {
      SettledTasksAgree(setup, cache, w, t, u);
    }
  }

  /** The result of a finished cycle stays what it is, whatever happens next. */
  lemma {:induction false} SettledResultsAreFinal(setup: Setup, cache: Cache, acts: seq<Act>, more: seq<Act>)
    requires Clean(cache)
    ensures Extends(Settled(Execute(setup, Idle(cache), acts)), Settled(Execute(setup, Idle(cache), acts + more)))
    decreases |more|
  {
    hide Exec, Safe, Settled;
    if more == [] {
      assert acts + more == acts;
    } else {
      var some, act := more[..|more| - 1], more[|more| - 1];
      SettledResultsAreFinal(setup, cache, acts, some);
      assert (acts + more)[..|acts + more| - 1] == acts + some;
      ExecuteSafe(setup, cache, acts + some);
      ExecSafe(setup, cache, Execute(setup, Idle(cache), acts + some), act);
    }
  }
}
