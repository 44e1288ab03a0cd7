/** The small steps of a worker, taken one after the other without interference, are one run of the job machine. */
module JobPipelineRuns {
  import opened Basics
  import opened JobPipeline
  import JobMachine

  function RecordOf(job: JobMachine.Job): Record {
    Record(job.tenant, job.status, job.cancelled)
  }

  /** The status a started run ends in, and whether it stores a dead-letter item. */
  function EndOf(cfg: JobMachine.Config, job: JobMachine.Job, req: JobMachine.RunRequest): (JobMachine.Status, bool) {
    if req.transientFail && !req.forceFail && job.retryCount < cfg.maxRetries then (JobMachine.Retrying, false)
    else if req.transientFail || req.forceFail then (JobMachine.Failed, true)
    else if req.execution.RaisesWhileRunning? then (JobMachine.Running, false)
    else if req.execution.AsksForDecision? && job.kind.Evaluation? then (JobMachine.NeedsManualDecision, false)
    else (JobMachine.Succeeded, false)
  }

  /** The small steps to a final status once the job is running; `back` says whether a success is written back. */
  function Rest(status: JobMachine.Status, back: bool): seq<Act> {
    match status
    case Retrying => [Retry, WriteBack]
    case Failed => [Fail, Fail, Fail, Fail, WriteBack]
    case Running => [Raise]
    case NeedsManualDecision => [AskDecision]
    case _ => if back then [Succeed(true), WriteBack] else [Succeed(false)]
  }

  /** The small steps of a run of this request, after the worker took its message. */
  function Acts(cfg: JobMachine.Config, job: JobMachine.Job, req: JobMachine.RunRequest, back: bool): seq<Act> {
    if JobMachine.CanRun(job.status) then [Start] + Rest(EndOf(cfg, job, req).0, back) else [Start]
  }

  /** Record, phase and number of dead-letter items after these steps. */
  function Effects(rec: Record, phase: Phase, acts: seq<Act>): (Record, Phase, nat)
    decreases |acts|
  {
    if acts == [] then (rec, phase, 0)
    else
      var (rec1, phase1, seeded) := Effect(rec, phase, acts[0]);
      var (rec2, phase2, more) := Effects(rec1, phase1, acts[1..]);
      (rec2, phase2, more + if seeded then 1 else 0)
  }

  lemma EffectsOfTwo(rec: Record, phase: Phase, a: Act, b: Act)
    ensures var (rec1, phase1, x) := Effect(rec, phase, a);
            var (rec2, phase2, y) := Effect(rec1, phase1, b);
            Effects(rec, phase, [a, b]) == (rec2, phase2, (if x then 1 else 0) + if y then 1 else 0)
  {
    var (rec1, phase1, x) := Effect(rec, phase, a);
    var (rec2, phase2, y) := Effect(rec1, phase1, b);
    assert [a, b][0] == a && [a, b][1..] == [b] && [b][1..] == [];
    assert Effects(rec2, phase2, []) == (rec2, phase2, 0);
    assert Effects(rec1, phase1, [b]) == (rec2, phase2, if y then 1 else 0);
  }

  lemma {:induction false} EffectsConcat(rec: Record, phase: Phase, a: seq<Act>, b: seq<Act>)
    ensures var (rec1, phase1, x) := Effects(rec, phase, a);
            var (rec2, phase2, y) := Effects(rec1, phase1, b);
            Effects(rec, phase, a + b) == (rec2, phase2, x + y)
    decreases |a|
  {
    if a == [] {
      assert a + b == b;
    } else {
      var (rec1, phase1, _) := Effect(rec, phase, a[0]);
      assert (a + b)[0] == a[0] && (a + b)[1..] == a[1..] + b;
      EffectsConcat(rec1, phase1, a[1..], b);
    }
  }

  lemma StartRuns(rec: Record)
    ensures Effects(rec, Fetched, [Start]) ==
              if JobMachine.CanRun(rec.status) then (rec.(status := JobMachine.Running), Working, 0)
              else (rec, Finished(false), 0)
  {
    assert [Start][1..] == [];
  }

  lemma FailHalves(rec: Record)
    requires rec.status == JobMachine.Running
    ensures var noted := rec.(status := JobMachine.DlqRecorded);
            && Effects(rec, Working, [Fail, Fail]) == (noted, DlqNoted, 0)
            && Effects(noted, DlqNoted, [Fail, Fail])
                 == (rec.(status := JobMachine.Failed), Writing(rec.(status := JobMachine.Failed), false), 1)
  {
    EffectsOfTwo(rec, Working, Fail, Fail);
    EffectsOfTwo(rec.(status := JobMachine.DlqRecorded), DlqNoted, Fail, Fail);
  }

  lemma FailRuns(rec: Record)
    requires rec.status == JobMachine.Running
    ensures Effects(rec, Working, [Fail, Fail, Fail, Fail, WriteBack])
         == (rec.(status := JobMachine.Failed), Finished(false), 1)
  {
    FailHalves(rec);
    EffectsConcat(rec, Working, [Fail, Fail], [Fail, Fail]);
    EffectsConcat(rec, Working, [Fail, Fail] + [Fail, Fail], [WriteBack]);
    assert [Fail, Fail] + [Fail, Fail] + [WriteBack] == [Fail, Fail, Fail, Fail, WriteBack];
    assert [WriteBack][1..] == [];
  }

  lemma OtherRuns(rec: Record)
    requires rec.status == JobMachine.Running
    ensures Effects(rec, Working, [Retry, WriteBack]) == (rec.(status := JobMachine.Retrying), Finished(true), 0)
    ensures Effects(rec, Working, [Succeed(true), WriteBack])
              == (rec.(status := JobMachine.Succeeded), Finished(false), 0)
    ensures Effects(rec, Working, [Succeed(false)]) == (rec.(status := JobMachine.Succeeded), Finished(false), 0)
    ensures Effects(rec, Working, [AskDecision]) == (rec.(status := JobMachine.NeedsManualDecision), Finished(false), 0)
    ensures Effects(rec, Working, [Raise]) == (rec, Finished(false), 0)
  {
    EffectsOfTwo(rec, Working, Retry, WriteBack);
    EffectsOfTwo(rec, Working, Succeed(true), WriteBack);
    assert [Succeed(false)][1..] == [] && [AskDecision][1..] == [] && [Raise][1..] == [];
  }

  /** What the job machine's run does, in the terms of the pipeline. */
  ghost predicate Agrees(req: JobMachine.RunRequest,
                         outcome: (JobMachine.Store, Result<JobMachine.RunResult, JobMachine.Error>),
                         steps: (Record, Phase, nat))
  {
    && req.jobId in outcome.0.jobs && steps.0 == RecordOf(outcome.0.jobs[req.jobId])
    && steps.1 == Finished(outcome.1.Ok? && outcome.1.value.finalStatus.Retrying?)
    && (steps.2 == 1 <==> req.dlqId in outcome.0.dlq) && steps.2 <= 1
  }

  lemma RestRuns(rec: Record, status: JobMachine.Status, back: bool)
    requires rec.status == JobMachine.Running
    requires status in {JobMachine.Retrying, JobMachine.Failed, JobMachine.Running, JobMachine.NeedsManualDecision,
                        JobMachine.Succeeded}
    ensures Effects(rec, Working, Rest(status, back))
         == (rec.(status := status), Finished(status == JobMachine.Retrying),
             if status == JobMachine.Failed then 1 else 0)
  {
    if status == JobMachine.Failed {
      FailRuns(rec);
    } else {
      OtherRuns(rec);
    }
  }

  lemma MachineReachesEnd(cfg: JobMachine.Config, st: JobMachine.Store, req: JobMachine.RunRequest, job: JobMachine.Job)
    requires req.jobId in st.jobs && req.dlqId !in st.dlq
    ensures var (st', r) := JobMachine.RunStarted(cfg, st, req, job.(status := JobMachine.Running));
            var (status, seeded) := EndOf(cfg, job, req);
            && req.jobId in st'.jobs && RecordOf(st'.jobs[req.jobId]) == RecordOf(job).(status := status)
            && (r.Ok? && r.value.finalStatus.Retrying? <==> status == JobMachine.Retrying)
            && (seeded <==> req.dlqId in st'.dlq)
  {
  }

  /**
   * Undisturbed, the small steps end where one call of `run_job_once` ends: same record, a nack exactly when it answers
   * retrying, and one dead-letter item exactly when it stores one.
   */
  lemma RunIsItsSteps(cfg: JobMachine.Config, st: JobMachine.Store, req: JobMachine.RunRequest, back: bool)
    requires JobMachine.Find(st, req.jobId, req.tenant).Ok? && req.dlqId !in st.dlq
    ensures var job := st.jobs[req.jobId];
            Agrees(req, JobMachine.RunJob(cfg, st, req), Effects(RecordOf(job), Fetched, Acts(cfg, job, req, back)))
  {
    var job := st.jobs[req.jobId];
    if JobMachine.CanRun(job.status) {
      var rest := Rest(EndOf(cfg, job, req).0, back);
      StartRuns(RecordOf(job));
      EffectsConcat(RecordOf(job), Fetched, [Start], rest);
      RestRuns(RecordOf(job).(status := JobMachine.Running), EndOf(cfg, job, req).0, back);
      MachineReachesEnd(cfg, st, req, job);
    } else {
      StartRuns(RecordOf(job));
    }
  }
}
