/**
 * A started job always has a message in flight whose holder goes on with it, unless a run raises while it is running.
 */
module JobPipelineTended {
  import opened Basics
  import opened QueueSpec
  import opened JobPipeline
  import opened JobPipelineSafety
  import opened JobPipelineRelay
  import opened JobPipelineCover
  import JobMachine

  /** Started and neither final nor set aside for a decision or a retry. */
  predicate Started(status: Status) {
    status == JobMachine.Running || status == JobMachine.DlqPending || status == JobMachine.DlqRecorded
  }

  /** The phase of a worker that takes a job of this status further. */
  predicate Matches(status: Status, phase: Phase) {
    match status
    case Running => phase.Working?
    case DlqPending => phase.DlqMarked?
    case DlqRecorded => phase.DlqNoted? || phase.ItemSeeded?
    case _ => false
  }

  /** The message is of the job and in flight, and whoever holds it goes on with the job; nobody does after a crash. */
  ghost predicate Tends(s: System, id: string, jobId: string) {
    && jobId in s.jobs && id in s.pool && s.pool[id].InFlight? && s.pool[id].msg.payload.jobId == jobId
    && forall w :: 0 <= w < |s.workers| && Holds(s.workers[w], id) ==> Matches(s.jobs[jobId].status, s.workers[w].phase)
  }

  predicate Holds(worker: Worker, id: string) {
    worker.Busy? && worker.msg.id == id
  }

  ghost predicate Tended(s: System, jobId: string) {
    exists id :: Tends(s, id, jobId)
  }

  ghost predicate AllTended(s: System) {
    forall j :: j in s.jobs && Started(s.jobs[j].status) ==> Tended(s, j)
  }

  // ---- The one step that leaves a started job alone ----

  /** A run raises while its job is running, and no other message tends the job. */
  ghost predicate Strands(s: System, step: Step) {
    && step.WorkStep? && step.act.Raise? && step.w < |s.workers|
    && s.workers[step.w].Busy? && s.workers[step.w].phase.Working?
    && var m := s.workers[step.w].msg;
       && m.payload.jobId in s.jobs && s.jobs[m.payload.jobId].status == JobMachine.Running
       && forall id :: Tends(s, id, m.payload.jobId) ==> id == m.id
  }

  /**
   * A small step goes on with a started job, or leaves its status to a message that already tended it; or it raises.
   */
  lemma EffectGoesOn(rec: Record, phase: Phase, act: Act)
    requires phase.Writing? ==> !Started(phase.copy.status)
    ensures var (rec', phase', _) := Effect(rec, phase, act);
            Started(rec'.status) ==>
              || Matches(rec'.status, phase')
              || (rec'.status == rec.status && !Matches(rec.status, phase))
              || (act.Raise? && phase.Working? && rec' == rec && rec.status == JobMachine.Running
                  && phase' == Finished(false))
  {
  }

  /** The other workers, and what they hold, are as before. */
  lemma OtherTends(s: System, w: nat, rec: Record, phase: Phase, seeded: bool, id: string, jobId: string)
    requires Inv(s) && w < |s.workers| && s.workers[w].Busy? && id != s.workers[w].msg.id && jobId in s.jobs
    requires jobId == s.workers[w].msg.payload.jobId ==> rec.status == s.jobs[jobId].status
    ensures Tends(Worked(s, w, rec, phase, seeded), id, jobId) <==> Tends(s, id, jobId)
  {
    var s' := Worked(s, w, rec, phase, seeded);
    assert forall v :: 0 <= v < |s.workers| ==> (Holds(s'.workers[v], id) <==> Holds(s.workers[v], id));
    assert forall v :: 0 <= v < |s.workers| && Holds(s.workers[v], id) ==> s'.workers[v] == s.workers[v];
  }

  /** Whether the worker's own message tends the job is decided by its phase. */
  lemma OwnTends(s: System, w: nat)
    requires Inv(s) && w < |s.workers| && s.workers[w].Busy?
    ensures var m := s.workers[w].msg;
            m.payload.jobId in s.jobs
            && (Tends(s, m.id, m.payload.jobId) <==> Matches(s.jobs[m.payload.jobId].status, s.workers[w].phase))
  {
    HeldJob(s, w);
    assert Holds(s.workers[w], s.workers[w].msg.id);
  }

  /** A message in flight of another job is not the worker's, so it tends as before. */
  lemma OtherJobStaysTended(s: System, w: nat, rec: Record, phase: Phase, seeded: bool, jobId: string)
    requires Inv(s) && w < |s.workers| && s.workers[w].Busy? && jobId != s.workers[w].msg.payload.jobId
    requires Tended(s, jobId)
    ensures Tended(Worked(s, w, rec, phase, seeded), jobId)
  {
    var id :| Tends(s, id, jobId);
    assert HeldBy(s, s.workers[w].msg);
    OtherTends(s, w, rec, phase, seeded, id, jobId);
  }

  /** A small step that does not raise keeps the job of its message tended. */
  lemma OwnJobStaysTended(s: System, w: nat, rec: Record, phase: Phase, seeded: bool)
    requires Inv(s) && w < |s.workers| && s.workers[w].Busy? && Inv(Worked(s, w, rec, phase, seeded))
    requires var j := s.workers[w].msg.payload.jobId;
             && j in s.jobs && (Started(s.jobs[j].status) ==> Tended(s, j))
             && Started(rec.status)
             && (Matches(rec.status, phase)
                 || (rec.status == s.jobs[j].status && !Matches(s.jobs[j].status, s.workers[w].phase)))
    ensures Tended(Worked(s, w, rec, phase, seeded), s.workers[w].msg.payload.jobId)
  {
    var s', m := Worked(s, w, rec, phase, seeded), s.workers[w].msg;
    if Matches(rec.status, phase) {
      OwnTends(s', w);
      assert Tends(s', m.id, m.payload.jobId);
    } else {
      OwnTends(s, w);
      var id :| Tends(s, id, m.payload.jobId);
      OtherTends(s, w, rec, phase, seeded, id, m.payload.jobId);
    }
  }

  /** After a raise the job is tended exactly when another message tended it. */
  lemma RaiseStrandsIff(s: System, w: nat)
    requires Inv(s) && AllTended(s) && w < |s.workers| && s.workers[w].Busy? && s.workers[w].phase.Working?
    requires s.workers[w].msg.payload.jobId in s.jobs
    requires s.jobs[s.workers[w].msg.payload.jobId].status == JobMachine.Running
    requires Inv(Worked(s, w, s.jobs[s.workers[w].msg.payload.jobId], Finished(false), false))
    ensures var j := s.workers[w].msg.payload.jobId;
            Tended(Worked(s, w, s.jobs[j], Finished(false), false), j) <==> !Strands(s, WorkStep(w, Raise))
  {
    var m := s.workers[w].msg;
    var j := m.payload.jobId;
    var s' := Worked(s, w, s.jobs[j], Finished(false), false);
    OwnTends(s', w);
    forall id | id != m.id ensures Tends(s', id, j) <==> Tends(s, id, j) {
      OtherTends(s, w, s.jobs[j], Finished(false), false, id, j);
    }
  }

  lemma WorkTendsIff(s: System, w: nat, act: Act)
    requires Inv(s) && AllTended(s)
    ensures AllTended(Work(s, w, act)) <==> !Strands(s, WorkStep(w, act))
  {
    if w < |s.workers| && s.workers[w].Busy? {
      HeldJob(s, w);
      WorkIsWorked(s, w, act);
      WorkKeepsInv(s, w, act);
      var m := s.workers[w].msg;
      var j := m.payload.jobId;
      var (rec, phase, seeded) := Effect(s.jobs[j], s.workers[w].phase, act);
      assert PhaseOk(s, j, m.tenant, s.workers[w].phase);
      EffectGoesOn(s.jobs[j], s.workers[w].phase, act);
      WorkedTendsIff(s, w, act, rec, phase, seeded);
    }
  }

  lemma WorkedTendsIff(s: System, w: nat, act: Act, rec: Record, phase: Phase, seeded: bool)
    requires Inv(s) && AllTended(s) && w < |s.workers| && s.workers[w].Busy?
    requires var j := s.workers[w].msg.payload.jobId;
             && j in s.jobs && Inv(Worked(s, w, rec, phase, seeded))
             && Effect(s.jobs[j], s.workers[w].phase, act) == (rec, phase, seeded)
             && (Started(rec.status) ==>
                   || Matches(rec.status, phase)
                   || (rec.status == s.jobs[j].status && !Matches(s.jobs[j].status, s.workers[w].phase))
                   || (act.Raise? && s.workers[w].phase.Working? && rec == s.jobs[j] && rec.status == JobMachine.Running
                       && phase == Finished(false) && !seeded))
    ensures AllTended(Worked(s, w, rec, phase, seeded)) <==> !Strands(s, WorkStep(w, act))
  {
    var s', j := Worked(s, w, rec, phase, seeded), s.workers[w].msg.payload.jobId;
    forall i | i in s'.jobs && i != j && Started(s'.jobs[i].status) ensures Tended(s', i) {
      OtherJobStaysTended(s, w, rec, phase, seeded, i);
    }
    if Started(rec.status) {
      if act.Raise? && s.workers[w].phase.Working? && s.jobs[j].status == JobMachine.Running {
        RaiseStrandsIff(s, w);
      } else {
        OwnJobStaysTended(s, w, rec, phase, seeded);
      }
    }
  }

  // ---- The other steps ----

  /** Every started job was started before, and its record is as it was. */
  ghost predicate StartsNone(s: System, s': System) {
    forall j :: j in s'.jobs && Started(s'.jobs[j].status) ==> j in s.jobs && s'.jobs[j] == s.jobs[j]
  }

  /** A step that takes nothing from whoever tends a job, and starts none, keeps all tended. */
  ghost predicate KeepsTending(s: System, s': System) {
    && StartsNone(s, s')
    && (forall id, j :: Tends(s, id, j) && j in s'.jobs && s'.jobs[j] == s.jobs[j] && Started(s.jobs[j].status) ==>
        Tends(s', id, j))
  }

  lemma KeepingTends(s: System, s': System)
    requires AllTended(s) && KeepsTending(s, s')
    ensures AllTended(s')
  {
    forall j | j in s'.jobs && Started(s'.jobs[j].status) ensures Tended(s', j) {
      var id :| Tends(s, id, j);
      assert Tends(s', id, j);
    }
  }

  /** The steps of a creation, and a cancellation, leave the pool, the workers and every started job as they are. */
  lemma JobStepKeepsHolders(s: System, step: Step)
    requires IsJobStep(step)
    ensures Next(s, step).pool == s.pool && Next(s, step).workers == s.workers
    ensures StartsNone(s, Next(s, step))
  {
    match step
    case PersistStep(j, t) => PersistKeepsHolders(s, j, t);
    case AppendStep(j, e) => assert Next(s, step).jobs == s.jobs;
    case AbandonStep(j) => assert Next(s, step).jobs == s.jobs;
    case CancelStep(j) => CancelKeepsHolders(s, j);
  }

  lemma PersistKeepsHolders(s: System, jobId: string, tenant: string)
    ensures var s' := PersistJob(s, jobId, tenant);
            s'.pool == s.pool && s'.workers == s.workers && StartsNone(s, s')
  {
  }

  lemma CancelKeepsHolders(s: System, jobId: string)
    ensures var s' := CancelJob(s, jobId);
            s'.pool == s.pool && s'.workers == s.workers && StartsNone(s, s')
  {
  }

  lemma SameHoldersTend(s: System, s': System)
    requires AllTended(s) && s'.pool == s.pool && s'.workers == s.workers
    requires StartsNone(s, s')
    ensures AllTended(s')
  {
    KeepingTends(s, s');
  }

  lemma JobStepTends(s: System, step: Step)
    requires AllTended(s) && IsJobStep(step)
    ensures AllTended(Next(s, step))
  {
    JobStepKeepsHolders(s, step);
    SameHoldersTend(s, Next(s, step));
  }

  lemma RelayStepTends(s: System, step: Step)
    requires Inv(s) && AllTended(s) && IsRelayStep(step)
    ensures AllTended(Next(s, step))
  {
    if step.RelayEnqueueStep? {
      EnqueueTends(s, step.r, step.id, step.now);
    } else {
      RelayLeavesWork(s, step);
      KeepingTends(s, Next(s, step));
    }
  }

  lemma EnqueueAdds(s: System, r: nat, id: string, now: int)
    requires Inv(s)
    ensures var s' := RelayEnqueue(s, r, id, now);
            && s'.jobs == s.jobs && s'.workers == s.workers
            && forall x :: x in s.pool ==> x in s'.pool && s'.pool[x] == s.pool[x]
  {
    assert id in s.pool ==> SameMessage(s, id, s.pool[id].msg);
  }

  lemma EnqueueTends(s: System, r: nat, id: string, now: int)
    requires Inv(s) && AllTended(s)
    ensures AllTended(RelayEnqueue(s, r, id, now))
  {
    EnqueueAdds(s, r, id, now);
    KeepingTends(s, RelayEnqueue(s, r, id, now));
  }

  lemma DequeueTends(s: System, w: nat, id: string)
    requires Inv(s) && AllTended(s)
    ensures AllTended(JobPipeline.Dequeue(s, w, id))
  {
    var s' := JobPipeline.Dequeue(s, w, id);
    if s' != s {
      assert SameMessage(s, id, s.pool[id].msg);
      forall x, j | Tends(s, x, j) ensures Tends(s', x, j) {
        assert forall v :: 0 <= v < |s'.workers| && Holds(s'.workers[v], x) ==> s'.workers[v] == s.workers[v];
      }
    }
    KeepingTends(s, s');
  }

  lemma CrashTends(s: System, w: nat)
    requires AllTended(s)
    ensures AllTended(WorkerCrash(s, w))
  {
    var s' := WorkerCrash(s, w);
    forall x, j | Tends(s, x, j) ensures Tends(s', x, j) {
      assert forall v :: 0 <= v < |s'.workers| && Holds(s'.workers[v], x) ==> s'.workers[v] == s.workers[v];
    }
    KeepingTends(s, s');
  }

  lemma ReleasedTends(s: System, w: nat, pool: Pool)
    requires AllTended(s) && w < |s.workers| && s.workers[w].Busy? && PoolWithout(s, s.workers[w].msg, pool)
    requires s.workers[w].phase.Finished?
    ensures AllTended(Released(s, w, pool))
  {
    var s' := Released(s, w, pool);
    forall x, j | Tends(s, x, j) && Started(s.jobs[j].status) ensures Tends(s', x, j) {
      assert Holds(s.workers[w], s.workers[w].msg.id);
      assert x != s.workers[w].msg.id;
      assert forall v :: 0 <= v < |s'.workers| && Holds(s'.workers[v], x) ==> s'.workers[v] == s.workers[v];
    }
    KeepingTends(s, s');
  }

  lemma SettleTends(s: System, w: nat, delayMs: int, now: int)
    requires Inv(s) && AllTended(s)
    ensures AllTended(Settle(s, w, delayMs, now))
  {
    if w < |s.workers| && s.workers[w].Busy? && s.workers[w].phase.Finished? {
      var m := s.workers[w].msg;
      var pool := if s.workers[w].phase.retry
                  then s.pool[m.id := Pending(Bumped(m, true, delayMs, now))] else s.pool - {m.id};
      assert Settle(s, w, delayMs, now) == Released(s, w, pool);
      assert HeldBy(s, m) && SameMessage(s, m.id, m);
      ReleasedTends(s, w, pool);
    }
  }

  /** A lost message was pending, or held by a worker that was done with it: it tended no started job. */
  lemma DequeueCutTends(s: System, w: nat, id: string)
    requires AllTended(s)
    ensures AllTended(DequeueCut(s, w, id))
  {
    var s' := DequeueCut(s, w, id);
    forall x, j | Tends(s, x, j) ensures Tends(s', x, j) {
    }
    KeepingTends(s, s');
  }

  lemma NackCutTends(s: System, w: nat)
    requires AllTended(s)
    ensures AllTended(NackCut(s, w))
  {
    if w < |s.workers| && s.workers[w].Busy? && s.workers[w].phase == Finished(true) {
      var pool := s.pool - {s.workers[w].msg.id};
      assert NackCut(s, w) == Released(s, w, pool);
      ReleasedTends(s, w, pool);
    }
  }

  /** From a state where every started job is tended, the next one is such a state unless the step strands a job. */
  lemma StepTendsIff(s: System, step: Step)
    requires Inv(s) && AllTended(s)
    ensures AllTended(Next(s, step)) <==> !Strands(s, step)
  {
    if step.WorkStep? {
      WorkTendsIff(s, step.w, step.act);
    } else if IsJobStep(step) {
      JobStepTends(s, step);
    } else if IsRelayStep(step) {
      RelayStepTends(s, step);
    } else {
      HandlingTends(s, step);
    }
  }

  lemma HandlingTends(s: System, step: Step)
    requires Inv(s) && AllTended(s) && !step.WorkStep? && !IsJobStep(step) && !IsRelayStep(step)
    ensures AllTended(Next(s, step))
  {
    match step
    case DequeueStep(w, id) => DequeueTends(s, w, id);
    case SettleStep(w, ms, now) => SettleTends(s, w, ms, now);
    case WorkerCrashStep(w) => CrashTends(s, w);
    case DequeueCutStep(w, id) => DequeueCutTends(s, w, id);
    case NackCutStep(w) => NackCutTends(s, w);
  }

  // ---- Every run ----

  /** No step of the run strands a job. */
  ghost predicate StrandsNone(s: System, steps: seq<Step>)
    decreases |steps|
  {
    steps != [] ==> !Strands(s, steps[0]) && StrandsNone(Next(s, steps[0]), steps[1..])
  }

  lemma {:induction false} RunTends(s: System, steps: seq<Step>)
    requires Inv(s) && AllTended(s) && StrandsNone(s, steps)
    ensures Inv(After(s, steps)) && AllTended(After(s, steps))
    decreases |steps|
  {
    if steps != [] {
      NextKeepsInv(s, steps[0]);
      StepTendsIff(s, steps[0]);
      RunTends(Next(s, steps[0]), steps[1..]);
    }
  }

  /** Without a raise no step strands a job. */
  lemma {:induction false} NoRaiseStrandsNone(s: System, steps: seq<Step>)
    requires forall i :: 0 <= i < |steps| ==> !(steps[i].WorkStep? && steps[i].act.Raise?)
    ensures StrandsNone(s, steps)
    decreases |steps|
  {
    if steps != [] {
      assert !(steps[0].WorkStep? && steps[0].act.Raise?);
      NoRaiseStrandsNone(Next(s, steps[0]), steps[1..]);
    }
  }

  /** In every run that strands none, a started job has a message in flight whose holder, if any, goes on with it. */
  lemma StartedJobsAreTended(relays: nat, workers: nat, steps: seq<Step>, jobId: string)
    requires StrandsNone(Init(relays, workers), steps)
    ensures var s := After(Init(relays, workers), steps);
            jobId in s.jobs && Started(s.jobs[jobId].status) ==> Tended(s, jobId)
  {
    InitInv(relays, workers);
    RunTends(Init(relays, workers), steps);
  }

  /** Neither final nor waiting for a decision. */
  predicate Open(status: Status) {
    !JobMachine.Terminal(status) && status != JobMachine.NeedsManualDecision
  }

  /**
   * No job is left behind: in every run that strands none and does not orphan the job, and so in every run without a
   * raise and without a crash within the queue, other crashes, overlaps and cancellations included, a job that is
   * neither final nor waiting for a decision has a pending event or a message if and only if its creation was
   * completed.
   */
  lemma NoJobLeftBehind(relays: nat, workers: nat, steps: seq<Step>, jobId: string)
    requires StrandsNone(Init(relays, workers), steps) && OrphansNot(Init(relays, workers), steps, jobId)
    ensures var s := After(Init(relays, workers), steps);
            jobId in s.jobs && Open(s.jobs[jobId].status) ==>
              (Covered(s, jobId) <==> jobId !in s.drafting + s.abandoned)
  {
    var s := After(Init(relays, workers), steps);
    InitInv(relays, workers);
    RunTends(Init(relays, workers), steps);
    NoOrphanedJob(relays, workers, steps, jobId);
    if jobId in s.jobs && Started(s.jobs[jobId].status) {
      var id :| Tends(s, id, jobId);
      assert SameMessage(s, id, s.pool[id].msg);
      SentJobsExist(s);
      assert WasSent(s, jobId);
    }
  }
}
