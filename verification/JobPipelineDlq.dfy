/** How many dead-letter items a job can get: at most one for each message that was ever sent for it. */
module JobPipelineDlq {
  import opened Basics
  import opened QueueSpec
  import opened JobPipeline
  import opened JobPipelineSafety
  import opened JobPipelineRelay
  import JobMachine

  /** The messages ever sent for a job. */
  ghost function SentFor(s: System, jobId: string): set<string> {
    set id | id in s.sent && s.sent[id].payload.jobId == jobId
  }

  /** A phase after which the message cannot add a dead-letter item any more. */
  predicate Past(phase: Phase) {
    match phase
    case ItemSeeded => true
    case Writing(_, retry) => !retry
    case Finished(retry) => !retry
    case _ => false
  }

  /** The message may still add an item: it is pending, or some worker holds it and is not past that. */
  ghost predicate Live(s: System, id: string) {
    && id in s.pool
    && (s.pool[id].Pending? || exists w :: 0 <= w < |s.workers| && Works(s.workers[w], id))
  }

  predicate Works(worker: Worker, id: string) {
    worker.Busy? && worker.msg.id == id && !Past(worker.phase)
  }

  ghost function Spent(s: System, jobId: string): set<string> {
    set id | id in SentFor(s, jobId) && !Live(s, id)
  }

  ghost predicate Bounded(s: System, jobId: string) {
    s.dlq[jobId] <= |Spent(s, jobId)|
  }

  // ---- No message comes to life again ----

  /** No message that was sent comes to life, and none is forgotten. */
  ghost predicate NoneRevived(s: System, s': System) {
    && (forall id :: id in s.sent ==> id in s'.sent && s'.sent[id] == s.sent[id])
    && (forall id :: id in s.sent && Live(s', id) ==> Live(s, id))
  }

  /** What was spent stays spent. */
  lemma SpentStays(s: System, s': System, jobId: string)
    requires NoneRevived(s, s')
    ensures Spent(s, jobId) <= Spent(s', jobId) && |Spent(s, jobId)| <= |Spent(s', jobId)|
  {
    forall id | id in Spent(s, jobId) ensures id in Spent(s', jobId) {
      assert id in s'.sent;
    }
    Fewer(Spent(s, jobId), Spent(s', jobId));
  }

  lemma Fewer(a: set<string>, b: set<string>)
    requires a <= b
    ensures |a| <= |b|
  {
    assert b == a + (b - a);
  }

  /** A step that leaves pool and workers alone revives nobody. */
  lemma SameHoldings(s: System, s': System)
    requires s'.pool == s.pool && s'.workers == s.workers && s'.sent == s.sent
    ensures NoneRevived(s, s')
  {
  }

  lemma EnqueueRevivesNone(s: System, r: nat, id: string, now: int)
    requires Inv(s)
    ensures NoneRevived(s, RelayEnqueue(s, r, id, now))
  {
  }

  lemma DequeueRevivesNone(s: System, w: nat, id: string)
    requires Inv(s)
    ensures NoneRevived(s, JobPipeline.Dequeue(s, w, id))
  {
    var s' := JobPipeline.Dequeue(s, w, id);
    if s' != s {
      assert SameMessage(s, id, s.pool[id].msg);
      forall x | x in s.sent && Live(s', x) ensures Live(s, x) {
        if x != id {
          if !s'.pool[x].Pending? {
            var v :| 0 <= v < |s'.workers| && Works(s'.workers[v], x);
            assert v != w && Works(s.workers[v], x);
          }
        }
      }
    }
  }

  lemma CrashRevivesNone(s: System, w: nat)
    ensures NoneRevived(s, WorkerCrash(s, w))
  {
    var s' := WorkerCrash(s, w);
    forall x | x in s.sent && Live(s', x) ensures Live(s, x) {
      if !s'.pool[x].Pending? {
        var v :| 0 <= v < |s'.workers| && Works(s'.workers[v], x);
        assert Works(s.workers[v], x);
      }
    }
  }

  lemma ReleasedRevivesNone(s: System, w: nat, pool: Pool)
    requires w < |s.workers| && s.workers[w].Busy? && PoolWithout(s, s.workers[w].msg, pool)
    requires s.workers[w].msg.id in pool ==> Works(s.workers[w], s.workers[w].msg.id) && s.workers[w].msg.id in s.pool
    ensures NoneRevived(s, Released(s, w, pool))
  {
    var s', m := Released(s, w, pool), s.workers[w].msg;
    forall x | x in s.sent && Live(s', x) ensures Live(s, x) {
      if x != m.id && !s'.pool[x].Pending? {
        var v :| 0 <= v < |s'.workers| && Works(s'.workers[v], x);
        assert Works(s.workers[v], x);
      }
    }
  }

  lemma SettleRevivesNone(s: System, w: nat, delayMs: int, now: int)
    requires Inv(s)
    ensures NoneRevived(s, Settle(s, w, delayMs, now))
  {
    if w < |s.workers| && s.workers[w].Busy? && s.workers[w].phase.Finished? {
      var m := s.workers[w].msg;
      var pool := if s.workers[w].phase.retry
                  then s.pool[m.id := Pending(Bumped(m, true, delayMs, now))] else s.pool - {m.id};
      assert Settle(s, w, delayMs, now) == Released(s, w, pool);
      assert HeldBy(s, m) && SameMessage(s, m.id, m);
      ReleasedRevivesNone(s, w, pool);
    } else {
      SameHoldings(s, s);
    }
  }

  lemma DequeueCutRevivesNone(s: System, w: nat, id: string)
    ensures NoneRevived(s, DequeueCut(s, w, id))
  {
  }

  lemma NackCutRevivesNone(s: System, w: nat)
    ensures NoneRevived(s, NackCut(s, w))
  {
    if w < |s.workers| && s.workers[w].Busy? && s.workers[w].phase == Finished(true) {
      var pool := s.pool - {s.workers[w].msg.id};
      assert NackCut(s, w) == Released(s, w, pool);
      ReleasedRevivesNone(s, w, pool);
    }
  }

  lemma EffectStaysPast(rec: Record, phase: Phase, act: Act)
    ensures Past(phase) ==> Past(Effect(rec, phase, act).1)
    ensures Effect(rec, phase, act).2 ==> !Past(phase) && Past(Effect(rec, phase, act).1)
  {
  }

  lemma WorkedRevivesNone(s: System, w: nat, rec: Record, phase: Phase, seeded: bool)
    requires w < |s.workers| && s.workers[w].Busy? && (Past(s.workers[w].phase) ==> Past(phase))
    ensures NoneRevived(s, Worked(s, w, rec, phase, seeded))
  {
    var s' := Worked(s, w, rec, phase, seeded);
    forall x | x in s.sent && Live(s', x) ensures Live(s, x) {
      if !s'.pool[x].Pending? {
        var v :| 0 <= v < |s'.workers| && Works(s'.workers[v], x);
        assert Works(s.workers[v], x);
      }
    }
  }

  /** Adding a dead-letter item spends the message of the worker that adds it. */
  lemma SeedingSpends(s: System, w: nat, rec: Record, phase: Phase)
    requires Inv(s) && w < |s.workers| && s.workers[w].Busy? && !Past(s.workers[w].phase) && Past(phase)
    ensures var s', j := Worked(s, w, rec, phase, true), s.workers[w].msg.payload.jobId;
            |Spent(s', j)| >= |Spent(s, j)| + 1
  {
    var s', m := Worked(s, w, rec, phase, true), s.workers[w].msg;
    var j := m.payload.jobId;
    HeldJob(s, w);
    WorkedRevivesNone(s, w, rec, phase, true);
    SpentStays(s, s', j);
    assert Works(s.workers[w], m.id) && Live(s, m.id);
    forall v | 0 <= v < |s'.workers| ensures !Works(s'.workers[v], m.id) {
      assert v != w && s.workers[v].Busy? ==> s.workers[v].msg.id != m.id;
    }
    assert !Live(s', m.id);
    Fewer(Spent(s, j) + {m.id}, Spent(s', j));
  }

  lemma WorkKeepsBound(s: System, w: nat, act: Act, jobId: string)
    requires Inv(s) && Bounded(s, jobId)
    ensures Bounded(Work(s, w, act), jobId)
  {
    if w < |s.workers| && s.workers[w].Busy? {
      HeldJob(s, w);
      WorkIsWorked(s, w, act);
      var j := s.workers[w].msg.payload.jobId;
      var (rec, phase, seeded) := Effect(s.jobs[j], s.workers[w].phase, act);
      EffectStaysPast(s.jobs[j], s.workers[w].phase, act);
      WorkedKeepsBound(s, w, rec, phase, seeded, jobId);
    }
  }

  lemma WorkedKeepsBound(s: System, w: nat, rec: Record, phase: Phase, seeded: bool, jobId: string)
    requires Inv(s) && Bounded(s, jobId) && w < |s.workers| && s.workers[w].Busy?
    requires (Past(s.workers[w].phase) ==> Past(phase)) && (seeded ==> !Past(s.workers[w].phase) && Past(phase))
    ensures Bounded(Worked(s, w, rec, phase, seeded), jobId)
  {
    var s' := Worked(s, w, rec, phase, seeded);
    WorkedRevivesNone(s, w, rec, phase, seeded);
    SpentStays(s, s', jobId);
    if seeded && s.workers[w].msg.payload.jobId == jobId {
      SeedingSpends(s, w, rec, phase);
    }
  }

  /** A step that adds no item and revives no message keeps the bound. */
  lemma QuietKeepsBound(s: System, s': System, jobId: string)
    requires Bounded(s, jobId) && s'.dlq == s.dlq && NoneRevived(s, s')
    ensures Bounded(s', jobId)
  {
    SpentStays(s, s', jobId);
  }

  lemma RelayStepKeepsBound(s: System, step: Step, jobId: string)
    requires Inv(s) && Bounded(s, jobId) && IsRelayStep(step)
    ensures Bounded(Next(s, step), jobId)
  {
    if step.RelayEnqueueStep? {
      EnqueueRevivesNone(s, step.r, step.id, step.now);
      QuietKeepsBound(s, RelayEnqueue(s, step.r, step.id, step.now), jobId);
    } else {
      RelayLeavesWork(s, step);
      LeavingKeepsBound(s, Next(s, step), jobId);
    }
  }

  lemma LeavingKeepsBound(s: System, s': System, jobId: string)
    requires Bounded(s, jobId) && LeavesWork(s, s')
    ensures Bounded(s', jobId)
  {
    SameHoldings(s, s');
    QuietKeepsBound(s, s', jobId);
  }

  lemma JobStepKeepsBound(s: System, step: Step, jobId: string)
    requires Bounded(s, jobId) && IsJobStep(step)
    ensures Bounded(Next(s, step), jobId)
  {
    match step {
      case PersistStep(j, t) => CreationHoldsSame(s, j, t, "");
      case AppendStep(j, e) => CreationHoldsSame(s, j, "", e);
      case AbandonStep(j) => EndingHoldsSame(s, j);
      case CancelStep(j) => EndingHoldsSame(s, j);
    }
    SameHoldings(s, Next(s, step));
    QuietKeepsBound(s, Next(s, step), jobId);
  }

  ghost predicate HoldsSame(s: System, s': System) {
    s'.pool == s.pool && s'.workers == s.workers && s'.sent == s.sent && s'.dlq == s.dlq
  }

  lemma CreationHoldsSame(s: System, jobId: string, tenant: string, eventId: string)
    ensures HoldsSame(s, PersistJob(s, jobId, tenant)) && HoldsSame(s, AppendEvent(s, jobId, eventId))
  {
  }

  lemma EndingHoldsSame(s: System, jobId: string)
    ensures HoldsSame(s, AbandonCreation(s, jobId)) && HoldsSame(s, CancelJob(s, jobId))
  {
  }

  lemma StepKeepsBound(s: System, step: Step, jobId: string)
    requires Inv(s) && Bounded(s, jobId)
    ensures Bounded(Next(s, step), jobId)
  {
    if IsRelayStep(step) {
      RelayStepKeepsBound(s, step, jobId);
    } else if IsJobStep(step) {
      JobStepKeepsBound(s, step, jobId);
    } else if step.WorkStep? {
      WorkKeepsBound(s, step.w, step.act, jobId);
    } else {
      HandlingKeepsBound(s, step, jobId);
    }
  }

  lemma HandlingKeepsBound(s: System, step: Step, jobId: string)
    requires Inv(s) && Bounded(s, jobId) && !IsRelayStep(step) && !IsJobStep(step) && !step.WorkStep?
    ensures Bounded(Next(s, step), jobId)
  {
    match step {
      case DequeueStep(w, id) => DequeueRevivesNone(s, w, id);
      case SettleStep(w, ms, now) => SettleRevivesNone(s, w, ms, now);
      case WorkerCrashStep(w) => CrashRevivesNone(s, w);
      case DequeueCutStep(w, id) => DequeueCutRevivesNone(s, w, id);
      case NackCutStep(w) => NackCutRevivesNone(s, w);
    }
    QuietKeepsBound(s, Next(s, step), jobId);
  }

  lemma {:induction false} RunKeepsBound(s: System, steps: seq<Step>, jobId: string)
    requires Inv(s) && Bounded(s, jobId)
    ensures Inv(After(s, steps)) && Bounded(After(s, steps), jobId)
    decreases |steps|
  {
    if steps != [] {
      NextKeepsInv(s, steps[0]);
      StepKeepsBound(s, steps[0], jobId);
      RunKeepsBound(Next(s, steps[0]), steps[1..], jobId);
    }
  }

  // ---- The theorems ----

  /**
   * In every run, crashes, cancellations and overlaps included, a job has at most as many items as messages sent for
   * it.
   */
  lemma ItemsAtMostMessages(relays: nat, workers: nat, steps: seq<Step>, jobId: string)
    ensures var s := After(Init(relays, workers), steps);
            s.dlq[jobId] <= |SentFor(s, jobId)|
  {
    InitInv(relays, workers);
    RunKeepsBound(Init(relays, workers), steps, jobId);
    var s := After(Init(relays, workers), steps);
    Fewer(Spent(s, jobId), SentFor(s, jobId));
  }

  /** A job that was sent at most once and failed without being cancelled has exactly one item. */
  lemma SentOnceFailedOnce(relays: nat, workers: nat, steps: seq<Step>, jobId: string)
    requires var s := After(Init(relays, workers), steps);
             FailedUncancelled(s, jobId) && |SentFor(s, jobId)| <= 1
    ensures After(Init(relays, workers), steps).dlq[jobId] == 1
  {
    ItemsAtMostMessages(relays, workers, steps, jobId);
    FailedJobsAreInDlq(relays, workers, steps, jobId);
  }

  predicate FailedUncancelled(s: System, jobId: string) {
    jobId in s.jobs && s.jobs[jobId].status == JobMachine.Failed && !s.jobs[jobId].cancelled
  }

  /** All messages of the job went to one consumer. */
  ghost predicate OneConsumer(s: System, jobId: string, consumer: string) {
    forall id :: id in SentFor(s, jobId) ==> s.sent[id].payload.consumer == consumer
  }

  /** A job has one event, so its messages for one consumer are those of one route. */
  lemma SentForIsEnqueued(s: System, jobId: string, consumer: string)
    requires Inv(s) && jobId in s.eventOf && OneConsumer(s, jobId, consumer)
    ensures SentFor(s, jobId) == Enqueued(s, (s.eventOf[jobId], consumer))
  {
    forall id | id in s.sent
      ensures s.sent[id].payload.jobId == jobId <==> s.sent[id].payload.eventId == s.eventOf[jobId]
    {
      assert MessageOk(s, s.sent[id]);
      assert EventOk(s, s.sent[id].payload.eventId);
    }
  }

  /**
   * With one consumer, and relays that never overlap on the job's event, a job has at most one dead-letter item plus
   * one for each relay crash between an enqueue and its mark; without such a crash, a job failed uncancelled has
   * exactly one.
   */
  lemma OneItemPlusCrashes(relays: nat, workers: nat, steps: seq<Step>, jobId: string, consumer: string)
    requires var s := After(Init(relays, workers), steps);
             && jobId in s.eventOf && OneConsumer(s, jobId, consumer)
             && NeverOverlaps(Init(relays, workers), steps, (s.eventOf[jobId], consumer))
    ensures var s := After(Init(relays, workers), steps);
            var route := (s.eventOf[jobId], consumer);
            && s.dlq[jobId] <= 1 + s.crashed[route]
            && (s.crashed[route] == 0 && FailedUncancelled(s, jobId) ==> s.dlq[jobId] == 1)
  {
    var s := After(Init(relays, workers), steps);
    InitInv(relays, workers);
    RunKeepsInv(Init(relays, workers), steps);
    SentForIsEnqueued(s, jobId, consumer);
    OneMessagePlusCrashes(relays, workers, steps, (s.eventOf[jobId], consumer));
    ItemsAtMostMessages(relays, workers, steps, jobId);
    FailedJobsAreInDlq(relays, workers, steps, jobId);
  }
}
