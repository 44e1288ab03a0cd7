/** A waiting job keeps a message unless a crash loses its last one: exactly which steps orphan which jobs. */
module JobPipelineCover {
  import opened Basics
  import opened QueueSpec
  import opened JobPipeline
  import opened JobPipelineSafety
  import opened JobPipelineRelay
  import JobMachine

  /** A phase that ends in an ack. */
  predicate Acks(phase: Phase) {
    match phase
    case Fetched => false
    case Writing(_, retry) => !retry
    case Finished(retry) => !retry
    case _ => true
  }

  /** Some worker holds the message and will ack it. */
  ghost predicate Doomed(s: System, id: string) {
    exists w :: 0 <= w < |s.workers| && s.workers[w].Busy? && s.workers[w].msg.id == id && Acks(s.workers[w].phase)
  }

  ghost predicate Carries(s: System, id: string, j: string) {
    id in s.pool && s.pool[id].msg.payload.jobId == j && !Doomed(s, id)
  }

  ghost predicate Carried(s: System, j: string) {
    exists id :: Carries(s, id, j)
  }

  predicate Waiting(status: Status) {
    status == JobMachine.Queued || status == JobMachine.Retrying
  }

  ghost predicate IsWaiting(s: System, j: string) {
    j in s.jobs && Waiting(s.jobs[j].status)
  }

  /** If the job is waiting and was ever sent, it has a message that is not about to be acked. */
  ghost predicate Kept(s: System, j: string) {
    IsWaiting(s, j) ==>
      && (WasSent(s, j) ==> Carried(s, j))
      && (s.jobs[j].status == JobMachine.Retrying ==> WasSent(s, j))
  }

  // ---- The steps that orphan a job ----

  /** The message that the step loses: a crash within a dequeue, or within a nack after a retry. */
  function Lost(s: System, step: Step): Option<string> {
    match step
    case DequeueCutStep(w, id) =>
      if w < |s.workers| && s.workers[w].Idle? && id in s.pool && s.pool[id].Pending? then Some(id) else None
    case NackCutStep(w) =>
      if w < |s.workers| && s.workers[w].Busy? && s.workers[w].phase == Finished(true) then Some(s.workers[w].msg.id)
      else None
    case _ => None
  }

  /** The step loses the only message that carries a waiting job. */
  ghost predicate Orphans(s: System, step: Step, j: string) {
    && IsWaiting(s, j) && Lost(s, step).Some? && Carries(s, Lost(s, step).value, j)
    && forall id :: Carries(s, id, j) ==> id == Lost(s, step).value
  }

  // ---- Steps that lose no message ----

  /** The job stays kept when its carriers stay and its past did not change. */
  lemma KeptFrame(s: System, s': System, j: string)
    requires Kept(s, j) && s'.sent == s.sent && forall id :: Carries(s, id, j) ==> Carries(s', id, j)
    requires IsWaiting(s', j) ==>
               if j in s.jobs then s'.jobs[j].status == s.jobs[j].status
               else s'.jobs[j].status == JobMachine.Queued && !WasSent(s, j)
    ensures Kept(s', j)
  {
    assert WasSent(s', j) <==> WasSent(s, j);
    if IsWaiting(s', j) && WasSent(s, j) {
      var id :| Carries(s, id, j);
      assert Carries(s', id, j);
    }
  }

  lemma SameHoldersKeep(s: System, s': System, j: string)
    requires Kept(s, j) && s'.sent == s.sent && s'.pool == s.pool && s'.workers == s.workers
    requires IsWaiting(s', j) ==>
               if j in s.jobs then s'.jobs[j].status == s.jobs[j].status
               else s'.jobs[j].status == JobMachine.Queued && !WasSent(s, j)
    ensures Kept(s', j)
  {
    assert forall id :: Doomed(s', id) <==> Doomed(s, id);
    KeptFrame(s, s', j);
  }

  lemma PersistKeeps(s: System, jobId: string, tenant: string, j: string)
    requires Inv(s) && Kept(s, j)
    ensures Kept(PersistJob(s, jobId, tenant), j)
  {
    SentJobsExist(s);
    SameHoldersKeep(s, PersistJob(s, jobId, tenant), j);
  }

  lemma CancelKeeps(s: System, jobId: string, j: string)
    requires Kept(s, j)
    ensures Kept(CancelJob(s, jobId), j)
  {
    SameHoldersKeep(s, CancelJob(s, jobId), j);
  }

  lemma JobStepKeeps(s: System, step: Step, j: string)
    requires Inv(s) && Kept(s, j) && IsJobStep(step)
    ensures Kept(Next(s, step), j)
  {
    match step
    case PersistStep(i, t) => PersistKeeps(s, i, t, j);
    case AppendStep(i, e) => SameHoldersKeep(s, AppendEvent(s, i, e), j);
    case AbandonStep(i) => SameHoldersKeep(s, AbandonCreation(s, i), j);
    case CancelStep(i) => CancelKeeps(s, i, j);
  }

  lemma EnqueueKeeps(s: System, r: nat, id: string, now: int, j: string)
    requires Inv(s) && Kept(s, j)
    ensures Kept(RelayEnqueue(s, r, id, now), j)
  {
    var s' := RelayEnqueue(s, r, id, now);
    if s' != s {
      var m := RelayMessage(s, r, id, now);
      assert forall x :: x in s.pool ==> SameMessage(s, x, s.pool[x].msg);
      assert !Doomed(s', id) by {
        assert forall w :: 0 <= w < |s.workers| && s.workers[w].Busy? ==> HeldBy(s, s.workers[w].msg);
      }
      if j == m.payload.jobId {
        assert Carries(s', id, j) && s'.sent[id].payload.jobId == j;
      } else {
        SentElsewhere(s, s', id, m, j);
        if IsWaiting(s, j) && WasSent(s, j) {
          var x :| Carries(s, x, j);
          assert Doomed(s', x) <==> Doomed(s, x);
          assert Carries(s', x, j);
        }
      }
    }
  }

  lemma SentElsewhere(s: System, s': System, id: string, m: Message, j: string)
    requires s'.sent == s.sent[id := m] && id !in s.sent && m.payload.jobId != j
    ensures WasSent(s', j) <==> WasSent(s, j)
  {
    if WasSent(s, j) {
      var x :| x in s.sent && s.sent[x].payload.jobId == j;
      assert x in s'.sent && s'.sent[x].payload.jobId == j;
    }
  }

  lemma RelayStepKeeps(s: System, step: Step, j: string)
    requires Inv(s) && Kept(s, j) && IsRelayStep(step)
    ensures Kept(Next(s, step), j)
  {
    if step.RelayEnqueueStep? {
      EnqueueKeeps(s, step.r, step.id, step.now, j);
    } else {
      RelayLeavesWork(s, step);
      SameHoldersKeep(s, Next(s, step), j);
    }
  }

  lemma DequeueKeeps(s: System, w: nat, id: string, j: string)
    requires Kept(s, j)
    ensures Kept(JobPipeline.Dequeue(s, w, id), j)
  {
    var s' := JobPipeline.Dequeue(s, w, id);
    if s' != s {
      assert forall x :: Doomed(s', x) ==> Doomed(s, x);
      KeptFrame(s, s', j);
    }
  }

  lemma WorkerCrashKeeps(s: System, w: nat, j: string)
    requires Kept(s, j)
    ensures Kept(WorkerCrash(s, w), j)
  {
    assert forall x :: Doomed(WorkerCrash(s, w), x) ==> Doomed(s, x);
    KeptFrame(s, WorkerCrash(s, w), j);
  }

  lemma ReleasedKeeps(s: System, w: nat, pool: Pool, j: string)
    requires Holdings(s) && Kept(s, j) && w < |s.workers| && s.workers[w].Busy?
    requires PoolWithout(s, s.workers[w].msg, pool)
    requires s.workers[w].msg.id !in pool ==> Acks(s.workers[w].phase)
    ensures Kept(Released(s, w, pool), j)
  {
    var s', m := Released(s, w, pool), s.workers[w].msg;
    assert HeldBy(s, m) && SameMessage(s, m.id, m);
    forall id | Carries(s, id, j) ensures Carries(s', id, j) {
      assert Doomed(s', id) ==> Doomed(s, id);
      if id == m.id {
        assert Acks(s.workers[w].phase) ==> Doomed(s, id);
      }
    }
    KeptFrame(s, s', j);
  }

  lemma SettleKeeps(s: System, w: nat, delayMs: int, now: int, j: string)
    requires Inv(s) && Kept(s, j)
    ensures Kept(Settle(s, w, delayMs, now), j)
  {
    if w < |s.workers| && s.workers[w].Busy? && s.workers[w].phase.Finished? {
      var m := s.workers[w].msg;
      var pool := if s.workers[w].phase.retry
                  then s.pool[m.id := Pending(Bumped(m, true, delayMs, now))] else s.pool - {m.id};
      assert Settle(s, w, delayMs, now) == Released(s, w, pool);
      assert HeldBy(s, m) && SameMessage(s, m.id, m);
      ReleasedKeeps(s, w, pool, j);
    }
  }

  // ---- Small steps of a run ----

  lemma EffectKeepsWaiting(rec: Record, phase: Phase, act: Act)
    requires phase.Writing? ==> (if phase.retry then phase.copy.status == JobMachine.Retrying
                                 else JobMachine.Terminal(phase.copy.status))
    ensures var (rec', phase', _) := Effect(rec, phase, act);
            Waiting(rec'.status) ==> !Acks(phase') || (rec'.status == rec.status && Acks(phase))
    ensures Effect(rec, phase, act).0.status == JobMachine.Queued ==> rec.status == JobMachine.Queued
  {
  }

  /** A message held by a worker that will not ack it carries its job. */
  lemma OwnMessageCarries(s: System, w: nat)
    requires Holdings(s) && w < |s.workers| && s.workers[w].Busy? && !Acks(s.workers[w].phase)
    ensures Carries(s, s.workers[w].msg.id, s.workers[w].msg.payload.jobId)
  {
    assert HeldBy(s, s.workers[w].msg);
  }

  /** A worker's step dooms at most its own message. */
  lemma OtherDoomed(s: System, s': System, w: nat, id: string)
    requires |s'.workers| == |s.workers| && w < |s.workers| && s.workers[w].Busy? && !Doomed(s, id)
    requires forall v :: 0 <= v < |s.workers| && v != w ==> s'.workers[v] == s.workers[v]
    requires s'.workers[w].Busy? ==> s'.workers[w].msg == s.workers[w].msg
    ensures Doomed(s', id) ==>
              s.workers[w].msg.id == id && s'.workers[w].Busy? && Acks(s'.workers[w].phase) && !Acks(s.workers[w].phase)
  {
  }

  lemma WorkedKeeps(s: System, w: nat, rec: Record, phase: Phase, seeded: bool, i: string)
    requires Records(s) && Holdings(s) && Kept(s, i) && w < |s.workers| && s.workers[w].Busy?
    requires var j := s.workers[w].msg.payload.jobId;
             && j in s.jobs
             && (Waiting(rec.status) ==> !Acks(phase) || (rec.status == s.jobs[j].status && Acks(s.workers[w].phase)))
    ensures Kept(Worked(s, w, rec, phase, seeded), i)
  {
    HeldJob(s, w);
    var s', m := Worked(s, w, rec, phase, seeded), s.workers[w].msg;
    if IsWaiting(s', i) {
      assert WasSent(s', i) <==> WasSent(s, i);
      if i == m.payload.jobId && !Acks(phase) {
        assert WasSent(s, i);
        WorkedKeepsHoldings(s, w, rec, phase, seeded);
        OwnMessageCarries(s', w);
      } else if WasSent(s, i) {
        var id :| Carries(s, id, i);
        OtherDoomed(s, s', w, id);
        assert Carries(s', id, i);
      }
    }
  }

  lemma WorkKeeps(s: System, w: nat, act: Act, i: string)
    requires Inv(s) && Kept(s, i)
    ensures Kept(Work(s, w, act), i)
  {
    if w < |s.workers| && s.workers[w].Busy? {
      HeldJob(s, w);
      var j := s.workers[w].msg.payload.jobId;
      assert PhaseOk(s, j, s.workers[w].msg.tenant, s.workers[w].phase);
      EffectKeepsWaiting(s.jobs[j], s.workers[w].phase, act);
      WorkIsWorked(s, w, act);
      var (rec, phase, seeded) := Effect(s.jobs[j], s.workers[w].phase, act);
      WorkedKeeps(s, w, rec, phase, seeded, i);
    }
  }

  // ---- Steps that lose a message ----

  /** Without the message, the job is kept exactly when it was not its only carrier. */
  lemma LossOrphansIff(s: System, s': System, id: string, j: string)
    requires Inv(s) && Kept(s, j) && id in s.pool && Carries(s, id, s.pool[id].msg.payload.jobId)
    requires s'.sent == s.sent && s'.jobs == s.jobs
    requires forall x :: Carries(s', x, j) <==> x != id && Carries(s, x, j)
    ensures Kept(s', j) <==>
              !(IsWaiting(s, j) && Carries(s, id, j) && forall x :: Carries(s, x, j) ==> x == id)
  {
    assert WasSent(s', j) <==> WasSent(s, j);
    if IsWaiting(s, j) {
      if Carries(s, id, j) {
        assert SameMessage(s, id, s.pool[id].msg);
        assert WasSent(s, j);
      } else if WasSent(s, j) {
        var x :| Carries(s, x, j);
        assert Carries(s', x, j);
      }
    }
  }

  lemma DequeueCutOrphansIff(s: System, w: nat, id: string, j: string)
    requires Inv(s) && Kept(s, j)
    ensures Kept(DequeueCut(s, w, id), j) <==> !Orphans(s, DequeueCutStep(w, id), j)
  {
    var s' := DequeueCut(s, w, id);
    if Lost(s, DequeueCutStep(w, id)).Some? {
      assert forall v :: 0 <= v < |s.workers| && s.workers[v].Busy? ==> HeldBy(s, s.workers[v].msg);
      assert !Doomed(s, id);
      assert forall x :: Doomed(s', x) <==> Doomed(s, x);
      LossOrphansIff(s, s', id, j);
    }
  }

  lemma NackCutOrphansIff(s: System, w: nat, j: string)
    requires Inv(s) && Kept(s, j)
    ensures Kept(NackCut(s, w), j) <==> !Orphans(s, NackCutStep(w), j)
  {
    var s' := NackCut(s, w);
    if Lost(s, NackCutStep(w)).Some? {
      var m := s.workers[w].msg;
      assert HeldBy(s, m);
      OwnMessageCarries(s, w);
      forall x | x != m.id ensures Doomed(s', x) <==> Doomed(s, x) {
        OthersDoomed(s, s', w, x);
      }
      LossOrphansIff(s, s', m.id, j);
    }
  }

  lemma OthersDoomed(s: System, s': System, w: nat, id: string)
    requires w < |s.workers| && s'.workers == s.workers[w := Idle] && s.workers[w].Busy? && s.workers[w].msg.id != id
    ensures Doomed(s', id) <==> Doomed(s, id)
  {
    if Doomed(s, id) {
      var v :| 0 <= v < |s.workers| && s.workers[v].Busy? && s.workers[v].msg.id == id && Acks(s.workers[v].phase);
      assert s'.workers[v] == s.workers[v];
    }
  }

  /** A step takes from a job that has a message its last one exactly when a crash loses its only carrier. */
  lemma StepOrphansIff(s: System, step: Step, j: string)
    requires Inv(s) && Kept(s, j)
    ensures Kept(Next(s, step), j) <==> !Orphans(s, step, j)
  {
    if IsJobStep(step) {
      JobStepKeeps(s, step, j);
    } else if IsRelayStep(step) {
      RelayStepKeeps(s, step, j);
    } else {
      WorkerStepOrphansIff(s, step, j);
    }
  }

  lemma WorkerStepOrphansIff(s: System, step: Step, j: string)
    requires Inv(s) && Kept(s, j) && !IsJobStep(step) && !IsRelayStep(step)
    ensures Kept(Next(s, step), j) <==> !Orphans(s, step, j)
  {
    match step
    case DequeueStep(w, id) => DequeueKeeps(s, w, id, j);
    case WorkStep(w, act) => WorkKeeps(s, w, act, j);
    case SettleStep(w, ms, now) => SettleKeeps(s, w, ms, now, j);
    case WorkerCrashStep(w) => WorkerCrashKeeps(s, w, j);
    case DequeueCutStep(w, id) => DequeueCutOrphansIff(s, w, id, j);
    case NackCutStep(w) => NackCutOrphansIff(s, w, j);
  }

  // ---- Every run ----

  /** The job is kept at every moment of the run. */
  ghost predicate AlwaysKept(s: System, steps: seq<Step>, j: string)
    decreases |steps|
  {
    Kept(s, j) && (steps != [] ==> AlwaysKept(Next(s, steps[0]), steps[1..], j))
  }

  /** No step of the run orphans the job. */
  ghost predicate OrphansNot(s: System, steps: seq<Step>, j: string)
    decreases |steps|
  {
    steps != [] ==> !Orphans(s, steps[0], j) && OrphansNot(Next(s, steps[0]), steps[1..], j)
  }

  lemma {:induction false} RunOrphansIff(s: System, steps: seq<Step>, j: string)
    requires Inv(s) && Kept(s, j)
    ensures AlwaysKept(s, steps, j) <==> OrphansNot(s, steps, j)
    decreases |steps|
  {
    if steps != [] {
      NextKeepsInv(s, steps[0]);
      StepOrphansIff(s, steps[0], j);
      if Kept(Next(s, steps[0]), j) {
        RunOrphansIff(Next(s, steps[0]), steps[1..], j);
      }
    }
  }

  /** In every run a job is kept at every moment if and only if no crash within the queue loses its last message. */
  lemma KeptIffNoLastLoss(relays: nat, workers: nat, steps: seq<Step>, j: string)
    ensures AlwaysKept(Init(relays, workers), steps, j) <==> OrphansNot(Init(relays, workers), steps, j)
  {
    InitInv(relays, workers);
    RunOrphansIff(Init(relays, workers), steps, j);
  }

  lemma {:induction false} KeptAtTheEnd(s: System, steps: seq<Step>, j: string)
    requires AlwaysKept(s, steps, j)
    ensures Kept(After(s, steps), j)
    decreases |steps|
  {
    if steps != [] {
      KeptAtTheEnd(Next(s, steps[0]), steps[1..], j);
    }
  }

  predicate IsLoss(step: Step) {
    step.DequeueCutStep? || step.NackCutStep?
  }

  /** Only a crash within a queue operation orphans a job. */
  lemma {:induction false} NoLossOrphansNone(s: System, steps: seq<Step>, j: string)
    requires forall i :: 0 <= i < |steps| ==> !IsLoss(steps[i])
    ensures OrphansNot(s, steps, j)
    decreases |steps|
  {
    if steps != [] {
      assert !IsLoss(steps[0]);
      NoLossOrphansNone(Next(s, steps[0]), steps[1..], j);
    }
  }

  /** The job has a pending outbox event, or a message in the queue or in flight. */
  ghost predicate Covered(s: System, jobId: string) {
    || (exists e :: e in s.events && s.events[e].jobId == jobId && !s.events[e].published)
    || (exists id :: id in s.pool && s.pool[id].msg.payload.jobId == jobId)
  }

  /** A job whose creation stopped between its record and its event was never sent and has no event. */
  lemma UncreatedIsUncovered(s: System, jobId: string)
    requires Inv(s) && jobId in s.drafting + s.abandoned
    ensures !Covered(s, jobId)
  {
    SentJobsExist(s);
    forall id | id in s.pool ensures s.pool[id].msg.payload.jobId != jobId {
      assert SameMessage(s, id, s.pool[id].msg);
      assert s.pool[id].msg.payload.jobId == jobId ==> WasSent(s, jobId);
    }
    assert forall e :: e in s.events ==> EventOk(s, e);
  }

  lemma KeptIsCovered(s: System, jobId: string)
    requires Inv(s) && Kept(s, jobId) && IsWaiting(s, jobId) && jobId !in s.drafting + s.abandoned
    ensures Covered(s, jobId)
  {
    var e := s.eventOf[jobId];
    if s.events[e].published {
      var c :| (e, c) in s.deliveries;
      var id := s.deliveries[(e, c)];
      assert SentOn(s, id, (e, c)) && MessageOk(s, s.sent[id]);
      assert WasSent(s, jobId);
      var x :| Carries(s, x, jobId);
    }
  }

  /**
   * No orphaned job: in every state any number of relays and workers can reach without a crash within the queue losing
   * the job's last message, a queued or retrying job is covered, except one whose creation stopped between the job
   * record and its event, and that one never is.
   */
  lemma NoOrphanedJob(relays: nat, workers: nat, steps: seq<Step>, jobId: string)
    requires OrphansNot(Init(relays, workers), steps, jobId)
    ensures var s := After(Init(relays, workers), steps);
            IsWaiting(s, jobId) ==> (Covered(s, jobId) <==> jobId !in s.drafting + s.abandoned)
  {
    InitInv(relays, workers);
    RunKeepsInv(Init(relays, workers), steps);
    KeptIffNoLastLoss(relays, workers, steps, jobId);
    KeptAtTheEnd(Init(relays, workers), steps, jobId);
    var s := After(Init(relays, workers), steps);
    if IsWaiting(s, jobId) {
      if jobId in s.drafting + s.abandoned {
        UncreatedIsUncovered(s, jobId);
      } else {
        KeptIsCovered(s, jobId);
      }
    }
  }
}
