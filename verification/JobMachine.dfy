/**
 * The job state machine: status transitions, one run of a job with its retry, dead-letter and success branches,
 * and cancellation; first as functions on a store value, then as methods that update the store in place.
 */
module JobMachine {
  import opened Basics

  datatype Status = Queued | Running | Retrying | Succeeded | NeedsManualDecision | DlqPending | DlqRecorded | Failed

  function AllowedTransitions(s: Status): set<Status> {
    match s
    case Queued => {Running}
    case Running => {Retrying, Succeeded, NeedsManualDecision, DlqPending}
    case Retrying => {Running, DlqPending}
    case NeedsManualDecision => {Running, Succeeded}
    case DlqPending => {DlqRecorded}
    case DlqRecorded => {Failed}
    case Succeeded => {}
    case Failed => {}
  }

  predicate Terminal(s: Status) {
    s.Succeeded? || s.Failed?
  }

  /** The graph read backwards: where each status can be entered from, and the statuses that nothing leaves. */
  lemma EnteredFrom(s: Status)
    ensures Queued !in AllowedTransitions(s)
    ensures Running in AllowedTransitions(s) <==> s in {Queued, Retrying, NeedsManualDecision}
    ensures Retrying in AllowedTransitions(s) <==> s == Running
    ensures Succeeded in AllowedTransitions(s) <==> s in {Running, NeedsManualDecision}
    ensures NeedsManualDecision in AllowedTransitions(s) <==> s == Running
    ensures DlqPending in AllowedTransitions(s) <==> s in {Running, Retrying}
    ensures DlqRecorded in AllowedTransitions(s) <==> s == DlqPending
    ensures Failed in AllowedTransitions(s) <==> s == DlqRecorded
    ensures AllowedTransitions(s) == {} <==> Terminal(s)
  {
    match s {
      case Queued => assert Running in AllowedTransitions(s);
      case Running => assert Retrying in AllowedTransitions(s);
      case Retrying => assert Running in AllowedTransitions(s);
      case NeedsManualDecision => assert Running in AllowedTransitions(s);
      case DlqPending => assert DlqRecorded in AllowedTransitions(s);
      case DlqRecorded => assert Failed in AllowedTransitions(s);
      case _ =>
    }
  }

  /** A chain of statuses, each allowed after the one before. */
  ghost predicate IsPath(path: seq<Status>) {
    forall i :: 0 <= i < |path| - 1 ==> path[i + 1] in AllowedTransitions(path[i])
  }

  /** A job that leaves the dead-letter road never comes back: it fails, and only over both dead-letter statuses. */
  lemma {:induction false} FailedOverDlq(path: seq<Status>, n: nat)
    requires IsPath(path) && n < |path| && path[0] == Queued && path[n] == Failed
    ensures n >= 4 && path[n - 1] == DlqRecorded && path[n - 2] == DlqPending && path[n - 3] in {Running, Retrying}
  {
    EnteredFrom(path[n - 1]);
    assert path[n] in AllowedTransitions(path[n - 1]);
    EnteredFrom(path[n - 2]);
    assert path[n - 1] in AllowedTransitions(path[n - 2]);
    EnteredFrom(path[n - 3]);
    assert path[n - 2] in AllowedTransitions(path[n - 3]);
  }

  datatype Kind = Parse | Evaluation | Resume | OtherKind

  /** `cancelled` stands for the error code JOB_CANCELLED. */
  datatype Job = Job(tenant: string, kind: Kind, status: Status, retryCount: nat, cancelled: bool)

  datatype DlqItem = DlqItem(jobId: string, tenant: string, errorCode: string)

  /** Manifests hold the parse manifest's own status, by job id; only parse jobs have one. */
  datatype Store = Store(jobs: map<string, Job>, manifests: map<string, Status>, dlq: map<string, DlqItem>)

  const EMPTY := Store(map[], map[], map[])

  datatype Error = JobNotFound | TenantScopeViolation | TransitionInvalid | CancelConflict | ExecutionRaised

  /** The worker settings, and the first two digest bytes behind the retry jitter. */
  datatype Config = Config(maxRetries: nat, backoffBaseMs: int, backoffMaxMs: int, digest: (string, nat) -> nat)

  /** What the job's own work does once the job is running. */
  datatype Execution = Completes | AsksForDecision | RaisesWhileRunning | RaisesAfterSuccess

  /** `errorCode` is "" when none is forced; `dlqId` is the fresh id a dead-letter item would get. */
  datatype RunRequest = RunRequest(jobId: string, tenant: string, forceFail: bool, transientFail: bool,
                                   errorCode: string, execution: Execution, dlqId: string)

  datatype RunResult = RunResult(finalStatus: Status, retryCount: nat, retryAfterMs: int, dlqId: Option<string>)

  // ---- Retry backoff ----

  function Pow2(n: nat): (p: nat)
    ensures p >= 1
  {
    if n == 0 then 1 else 2 * Pow2(n - 1)
  }

  function RetryJitterMs(cfg: Config, jobId: string, retryCount: nat): nat {
    cfg.digest(jobId, retryCount) % 301
  }

  function BackoffCap(cfg: Config): nat {
    Max(Max(0, cfg.backoffBaseMs), cfg.backoffMaxMs)
  }

  function RetryBackoffMs(cfg: Config, jobId: string, retryCount: int): int {
    var n := Max(1, retryCount);
    Min(BackoffCap(cfg), Max(0, cfg.backoffBaseMs) * Pow2(n - 1)) + RetryJitterMs(cfg, jobId, n)
  }

  lemma BackoffBounds(cfg: Config, jobId: string, retryCount: int)
    ensures 0 <= RetryBackoffMs(cfg, jobId, retryCount) <= BackoffCap(cfg) + 300
  {
    var n := Max(1, retryCount);
    var base := Max(0, cfg.backoffBaseMs);
    assert base * Pow2(n - 1) >= 0;
  }

  /** Before jitter the delays never shrink from one retry to the next, and stop at the cap. */
  lemma BackoffGrows(cfg: Config, jobId: string, n: nat)
    requires n >= 1
    ensures RetryBackoffMs(cfg, jobId, n) - RetryJitterMs(cfg, jobId, n)
              <= RetryBackoffMs(cfg, jobId, n + 1) - RetryJitterMs(cfg, jobId, n + 1) <= BackoffCap(cfg)
  {
    var base := Max(0, cfg.backoffBaseMs);
    assert Pow2(n) == 2 * Pow2(n - 1);
    assert base * Pow2(n) == base * Pow2(n - 1) + base * Pow2(n - 1);
    assert base * Pow2(n - 1) >= 0;
  }

  /** The delay without its jitter. */
  function Unjittered(cfg: Config, jobId: string, n: nat): int {
    RetryBackoffMs(cfg, jobId, n) - RetryJitterMs(cfg, jobId, n)
  }

  /**
   * The backoff is exponential: the first delay is the base, each next one twice the one before, up to the larger of
   * base and maximum; the jitter is what the digest leaves modulo 301.
   */
  lemma BackoffDoubles(cfg: Config, jobId: string, n: nat)
    requires n >= 1
    ensures var base := Max(0, cfg.backoffBaseMs);
            && Unjittered(cfg, jobId, 1) == base
            && Unjittered(cfg, jobId, n + 1) == Min(Max(base, cfg.backoffMaxMs), 2 * Unjittered(cfg, jobId, n))
    ensures RetryBackoffMs(cfg, jobId, 1 - n) == RetryBackoffMs(cfg, jobId, 1)
    ensures RetryJitterMs(cfg, jobId, n) <= 300
    ensures exists q: nat :: cfg.digest(jobId, n) == 301 * q + RetryJitterMs(cfg, jobId, n)
  {
    var base := Max(0, cfg.backoffBaseMs);
    assert Pow2(n) == 2 * Pow2(n - 1);
    assert base * Pow2(n) == base * Pow2(n - 1) + base * Pow2(n - 1);
    assert base * Pow2(n - 1) >= 0;
    assert cfg.digest(jobId, n) == 301 * (cfg.digest(jobId, n) / 301) + RetryJitterMs(cfg, jobId, n);
  }

  // ---- The operations on a store value ----

  /** The job a tenant may touch, or why it may not. */
  function Find(st: Store, jobId: string, tenant: string): Result<Job, Error> {
    if jobId !in st.jobs then Err(JobNotFound)
    else if st.jobs[jobId].tenant != tenant then Err(TenantScopeViolation)
    else Ok(st.jobs[jobId])
  }

  function Transition(job: Job, status: Status): Result<Job, Error> {
    if status == job.status then Ok(job)
    else if status !in AllowedTransitions(job.status) then Err(TransitionInvalid)
    else Ok(job.(status := status, retryCount := job.retryCount + if status.Retrying? then 1 else 0))
  }

  /** A transition is refused or changes the status, and counts a retry exactly when it begins one. */
  lemma TransitionIs(job: Job, status: Status)
    ensures var r := Transition(job, status);
            && (r.Ok? <==> status == job.status || status in AllowedTransitions(job.status))
            && (r.Err? ==> r.error == TransitionInvalid)
            && (r.Ok? ==>
                  && r.value.status == status && r.value.tenant == job.tenant && r.value.kind == job.kind
                  && r.value.cancelled == job.cancelled
                  && r.value.retryCount
                       == job.retryCount + if status == Retrying && job.status == Running then 1 else 0)
  {
    EnteredFrom(job.status);
  }

  function WithManifest(st: Store, jobId: string, status: Status): Store {
    if jobId in st.jobs && st.jobs[jobId].kind.Parse? && jobId in st.manifests
    then st.(manifests := st.manifests[jobId := status]) else st
  }

  function WithJob(st: Store, jobId: string, job: Job, manifest: Status): Store {
    WithManifest(st, jobId, manifest).(jobs := st.jobs[jobId := job])
  }

  /** Writing the same job twice leaves what the second write says. */
  lemma WithJobTwice(st: Store, jobId: string, a: Job, b: Job, m: Status, n: Status)
    requires jobId in st.jobs && a.kind == st.jobs[jobId].kind
    ensures WithJob(WithJob(st, jobId, a, m), jobId, b, n) == WithJob(st, jobId, b, n)
  {
    assert st.jobs[jobId := a][jobId := b] == st.jobs[jobId := b];
    assert st.manifests[jobId := m][jobId := n] == st.manifests[jobId := n];
  }

  function DefaultErrorCode(kind: Kind): string {
    if kind.Parse? then "DOC_PARSE_OUTPUT_NOT_FOUND" else "INTERNAL_DEBUG_FORCED_FAIL"
  }

  function Cancel(st: Store, jobId: string, tenant: string): (Store, Result<(), Error>) {
    match Find(st, jobId, tenant)
    case Err(e) => (st, Err(e))
    case Ok(job) =>
      if Terminal(job.status) then (st, Err(CancelConflict))
      else (st.(jobs := st.jobs[jobId := job.(status := Failed, cancelled := true)]), Ok(()))
  }

  /** A run is refused for its status exactly when the job is neither running nor can start running. */
  predicate CanRun(status: Status) {
    status in {Queued, Running, Retrying, NeedsManualDecision}
  }

  /** The rest of a run once the job is running: `job` is the running record. */
  function RunStarted(cfg: Config, st: Store, req: RunRequest, job: Job): (Store, Result<RunResult, Error>) {
    if req.transientFail && !req.forceFail && job.retryCount < cfg.maxRetries then
      var n := job.retryCount + 1;
      (WithJob(st, req.jobId, job.(status := Retrying, retryCount := n), Retrying),
       Ok(RunResult(Retrying, n, RetryBackoffMs(cfg, req.jobId, n), None)))
    else if req.transientFail || req.forceFail then
      var code := if req.errorCode != "" then req.errorCode
                  else if req.forceFail then DefaultErrorCode(job.kind) else "RAG_UPSTREAM_UNAVAILABLE";
      (WithJob(st, req.jobId, job.(status := Failed), Failed)
         .(dlq := st.dlq[req.dlqId := DlqItem(req.jobId, req.tenant, code)]),
       Ok(RunResult(Failed, job.retryCount, 0, Some(req.dlqId))))
    else if req.execution.RaisesWhileRunning? then
      (WithJob(st, req.jobId, job, Running), Err(ExecutionRaised))
    else if req.execution.AsksForDecision? && job.kind.Evaluation? then
      (WithJob(st, req.jobId, job.(status := NeedsManualDecision), Running),
       Ok(RunResult(NeedsManualDecision, job.retryCount, 0, None)))
    else
      (WithJob(st, req.jobId, job.(status := Succeeded), Succeeded),
       if req.execution.RaisesAfterSuccess? && job.kind.Parse? then Err(ExecutionRaised)
       else Ok(RunResult(Succeeded, job.retryCount, 0, None)))
  }

  /** The whole effect of one run: the job's net status change, its manifest, and the dead-letter item. */
  function RunJob(cfg: Config, st: Store, req: RunRequest): (Store, Result<RunResult, Error>) {
    match Find(st, req.jobId, req.tenant)
    case Err(e) => (st, Err(e))
    case Ok(job) =>
      if !CanRun(job.status) then (WithManifest(st, req.jobId, Running), Err(TransitionInvalid))
      else RunStarted(cfg, st, req, job.(status := Running))
  }

  /** That the job's record was first written as running does not show in the outcome. */
  lemma StartIsAbsorbed(cfg: Config, st: Store, req: RunRequest, job: Job)
    requires req.jobId in st.jobs && job.kind == st.jobs[req.jobId].kind
    ensures RunStarted(cfg, WithJob(st, req.jobId, job, Running), req, job) == RunStarted(cfg, st, req, job)
  {
    WithJobTwice(st, req.jobId, job, job, Running, Running);
    WithJobTwice(st, req.jobId, job, job.(status := Failed), Running, Failed);
    WithJobTwice(st, req.jobId, job, job.(status := Retrying, retryCount := job.retryCount + 1), Running, Retrying);
    WithJobTwice(st, req.jobId, job, job.(status := NeedsManualDecision), Running, Running);
    WithJobTwice(st, req.jobId, job, job.(status := Succeeded), Running, Succeeded);
  }

  // ---- The store that the methods update in place ----

  class JobStore {
    const cfg: Config
    var jobs: map<string, Job>
    var manifests: map<string, Status>
    var dlq: map<string, DlqItem>

    constructor (cfg: Config)
      ensures Value() == EMPTY && this.cfg == cfg
    {
      this.cfg := cfg;
      jobs, manifests, dlq := map[], map[], map[];
    }

    ghost function Value(): Store
      reads this
    {
      Store(jobs, manifests, dlq)
    }

    method TransitionJobStatus(jobId: string, status: Status, tenant: string) returns (r: Result<Job, Error>)
      modifies this
      ensures manifests == old(manifests) && dlq == old(dlq)
      ensures match Find(old(Value()), jobId, tenant)
              case Err(e) => r == Err(e) && jobs == old(jobs)
              case Ok(job) =>
                && r == Transition(job, status)
                && jobs == if r.Ok? then old(jobs)[jobId := r.value] else old(jobs)
    {
      if jobId !in jobs {
        return Err(JobNotFound);
      }
      var job := jobs[jobId];
      if job.tenant != tenant {
        return Err(TenantScopeViolation);
      }
      if status == job.status {
        assert jobs == old(jobs)[jobId := job];
        return Ok(job);
      }
      if status !in AllowedTransitions(job.status) {
        return Err(TransitionInvalid);
      }
      if status.Retrying? {
        job := job.(retryCount := job.retryCount + 1);
      }
      job := job.(status := status);
      jobs := jobs[jobId := job];
      return Ok(job);
    }

    method CancelJob(jobId: string, tenant: string) returns (r: Result<(), Error>)
      modifies this
      ensures (Value(), r) == Cancel(old(Value()), jobId, tenant)
    {
      if jobId !in jobs {
        return Err(JobNotFound);
      }
      if jobs[jobId].tenant != tenant {
        return Err(TenantScopeViolation);
      }
      if Terminal(jobs[jobId].status) {
        return Err(CancelConflict);
      }
      jobs := jobs[jobId := jobs[jobId].(status := Failed, cancelled := true)];
      return Ok(());
    }

    /** Writes the manifest of a parse job, when it has one. */
    method MarkManifest(jobId: string, status: Status)
      modifies this
      ensures Value() == WithManifest(old(Value()), jobId, status)
    {
      if jobId in jobs && jobs[jobId].kind.Parse? && jobId in manifests {
        manifests := manifests[jobId := status];
      }
    }

    method RunJobOnce(req: RunRequest) returns (r: Result<RunResult, Error>)
      modifies this
      ensures (Value(), r) == RunJob(cfg, old(Value()), req)
    {
      if req.jobId !in jobs {
        return Err(JobNotFound);
      }
      var job := jobs[req.jobId];
      if job.tenant != req.tenant {
        return Err(TenantScopeViolation);
      }
      if job.status in {Queued, Retrying, NeedsManualDecision} {
        var started := TransitionJobStatus(req.jobId, Running, req.tenant);
        job := started.value;
      }
      MarkManifest(req.jobId, Running);
      if !job.status.Running? {
        return Err(TransitionInvalid);
      }
      assert Value() == WithJob(old(Value()), req.jobId, job, Running);
      StartIsAbsorbed(cfg, old(Value()), req, job);
      r := Proceed(req, job);
    }

    /** The part of `run_job_once` after the job is running. */
    method Proceed(req: RunRequest, job: Job) returns (r: Result<RunResult, Error>)
      requires Find(Value(), req.jobId, req.tenant) == Ok(job) && job.status.Running?
      requires Value() == WithManifest(Value(), req.jobId, Running)
      modifies this
      ensures (Value(), r) == RunStarted(cfg, old(Value()), req, job)
    {
      var forceFail, code := req.forceFail, req.errorCode;
      if req.transientFail && !forceFail {
        if code == "" {
          code := "RAG_UPSTREAM_UNAVAILABLE";
        }
        if job.retryCount < cfg.maxRetries {
          r := Retry(req, job);
          return;
        }
        forceFail := true;
      }
      if forceFail {
        if code == "" {
          code := DefaultErrorCode(job.kind);
        }
        r := Fail(req, job, code);
        return;
      }
      if req.execution.RaisesWhileRunning? {
        assert jobs[req.jobId := job] == jobs;
        return Err(ExecutionRaised);
      }
      if req.execution.AsksForDecision? && job.kind.Evaluation? {
        var _ := TransitionJobStatus(req.jobId, NeedsManualDecision, req.tenant);
        return Ok(RunResult(NeedsManualDecision, job.retryCount, 0, None));
      }
      var _ := TransitionJobStatus(req.jobId, Succeeded, req.tenant);
      MarkManifest(req.jobId, Succeeded);
      if req.execution.RaisesAfterSuccess? && job.kind.Parse? {
        return Err(ExecutionRaised);
      }
      return Ok(RunResult(Succeeded, job.retryCount, 0, None));
    }

    /** The retry branch of a run: one more attempt is granted and its delay computed. */
    method Retry(req: RunRequest, job: Job) returns (r: Result<RunResult, Error>)
      requires Find(Value(), req.jobId, req.tenant) == Ok(job) && job.status.Running?
      modifies this
      ensures Value() == WithJob(old(Value()), req.jobId, job.(status := Retrying, retryCount := job.retryCount + 1),
                                 Retrying)
      ensures r == Ok(RunResult(Retrying, job.retryCount + 1, RetryBackoffMs(cfg, req.jobId, job.retryCount + 1), None))
    {
      var retried := TransitionJobStatus(req.jobId, Retrying, req.tenant);
      var n := retried.value.retryCount;
      MarkManifest(req.jobId, Retrying);
      return Ok(RunResult(Retrying, n, RetryBackoffMs(cfg, req.jobId, n), None));
    }

    /** The failure branch of a run: two dead-letter transitions, the item itself, and only then `failed`. */
    method Fail(req: RunRequest, job: Job, code: string) returns (r: Result<RunResult, Error>)
      requires Find(Value(), req.jobId, req.tenant) == Ok(job) && job.status.Running?
      modifies this
      ensures Value() == WithJob(old(Value()), req.jobId, job.(status := Failed), Failed)
                         .(dlq := old(dlq)[req.dlqId := DlqItem(req.jobId, req.tenant, code)])
      ensures r == Ok(RunResult(Failed, job.retryCount, 0, Some(req.dlqId)))
    {
      var _ := TransitionJobStatus(req.jobId, DlqPending, req.tenant);
      var _ := TransitionJobStatus(req.jobId, DlqRecorded, req.tenant);
      dlq := dlq[req.dlqId := DlqItem(req.jobId, req.tenant, code)];
      var failed := TransitionJobStatus(req.jobId, Failed, req.tenant);
      MarkManifest(req.jobId, Failed);
      return Ok(RunResult(Failed, failed.value.retryCount, 0, Some(req.dlqId)));
    }
  }

  // ---- Whole runs ----

  datatype Op =
    | CreateOp(jobId: string, tenant: string, kind: Kind)
    | RunOp(req: RunRequest)
    | CancelOp(jobId: string, tenant: string)

  function Create(st: Store, jobId: string, tenant: string, kind: Kind): Store {
    st.(jobs := st.jobs[jobId := Job(tenant, kind, Queued, 0, false)],
        manifests := if kind.Parse? then st.manifests[jobId := Queued] else st.manifests)
  }

  function Apply(cfg: Config, st: Store, op: Op): Store {
    match op
    case CreateOp(j, t, k) => Create(st, j, t, k)
    case RunOp(req) => RunJob(cfg, st, req).0
    case CancelOp(j, t) => Cancel(st, j, t).0
  }

  function Run(cfg: Config, st: Store, ops: seq<Op>): Store
    decreases |ops|
  {
    if ops == [] then st else Run(cfg, Apply(cfg, st, ops[0]), ops[1..])
  }

  /** Job ids and dead-letter ids are drawn fresh. */
  ghost predicate Fresh(st: Store, op: Op) {
    && (op.CreateOp? ==> op.jobId !in st.jobs && op.jobId !in st.manifests)
    && (op.RunOp? ==> op.req.dlqId !in st.dlq)
  }

  ghost predicate FreshRun(cfg: Config, st: Store, ops: seq<Op>)
    decreases |ops|
  {
    ops != [] ==> Fresh(st, ops[0]) && FreshRun(cfg, Apply(cfg, st, ops[0]), ops[1..])
  }

  ghost function DlqOf(st: Store, jobId: string): set<string> {
    set id | id in st.dlq && st.dlq[id].jobId == jobId
  }

  /** A job failed without being cancelled has one dead-letter item, any other job has none. */
  ghost predicate JobOk(cfg: Config, st: Store, jobId: string)
    requires jobId in st.jobs
  {
    var job := st.jobs[jobId];
    && !job.status.DlqPending? && !job.status.DlqRecorded?
    && job.retryCount <= cfg.maxRetries
    && (job.cancelled ==> job.status.Failed?)
    && |DlqOf(st, jobId)| == (if job.status.Failed? && !job.cancelled then 1 else 0)
  }

  ghost predicate Inv(cfg: Config, st: Store) {
    && (forall j :: j in st.jobs ==> JobOk(cfg, st, j))
    && (forall id :: id in st.dlq ==>
        st.dlq[id].jobId in st.jobs && st.dlq[id].tenant == st.jobs[st.dlq[id].jobId].tenant)
  }

  lemma StepKeepsInv(cfg: Config, st: Store, op: Op)
    requires Inv(cfg, st) && Fresh(st, op)
    ensures Inv(cfg, Apply(cfg, st, op))
  {
    match op
    case CreateOp(j, t, k) => CreateKeepsInv(cfg, st, j, t, k);
    case RunOp(req) => RunJobKeepsInv(cfg, st, req);
    case CancelOp(j, t) => CancelKeepsInv(cfg, st, j, t);
  }

  lemma CreateKeepsInv(cfg: Config, st: Store, jobId: string, tenant: string, kind: Kind)
    requires Inv(cfg, st) && jobId !in st.jobs
    ensures Inv(cfg, Create(st, jobId, tenant, kind))
  {
    var st' := Create(st, jobId, tenant, kind);
    assert DlqOf(st, jobId) == {};
    forall j | j in st'.jobs ensures JobOk(cfg, st', j) {
      assert DlqOf(st', j) == DlqOf(st, j);
      assert j in st.jobs ==> JobOk(cfg, st, j);
    }
  }

  lemma CancelKeepsInv(cfg: Config, st: Store, jobId: string, tenant: string)
    requires Inv(cfg, st)
    ensures Inv(cfg, Cancel(st, jobId, tenant).0)
  {
    var st' := Cancel(st, jobId, tenant).0;
    forall j | j in st'.jobs ensures JobOk(cfg, st', j) {
      assert DlqOf(st', j) == DlqOf(st, j);
      assert JobOk(cfg, st, j);
    }
  }

  /** What a run does to the job's record; a dead-letter item appears exactly when the job fails now. */
  lemma RunJobRecord(cfg: Config, st: Store, req: RunRequest)
    requires Find(st, req.jobId, req.tenant).Ok? && JobOk(cfg, st, req.jobId)
    ensures var st' := RunJob(cfg, st, req).0;
            var job := st.jobs[req.jobId];
            && st'.jobs.Keys == st.jobs.Keys
            && (forall j :: j in st.jobs && j != req.jobId ==> st'.jobs[j] == st.jobs[j])
            && var job' := st'.jobs[req.jobId];
            && job'.tenant == job.tenant && job'.cancelled == job.cancelled && job'.retryCount <= cfg.maxRetries
            && !job'.status.DlqPending? && !job'.status.DlqRecorded?
            && (Terminal(job.status) ==> job' == job)
            && if job'.status.Failed? && !job.status.Failed?
               then st'.dlq.Keys == st.dlq.Keys + {req.dlqId}
                    && st'.dlq[req.dlqId].jobId == req.jobId && st'.dlq[req.dlqId].tenant == job.tenant
                    && forall id :: id in st.dlq && id != req.dlqId ==> st'.dlq[id] == st.dlq[id]
               else st'.dlq == st.dlq
  {
  }

  lemma RunJobKeepsInv(cfg: Config, st: Store, req: RunRequest)
    requires Inv(cfg, st) && req.dlqId !in st.dlq
    ensures Inv(cfg, RunJob(cfg, st, req).0)
  {
    if Find(st, req.jobId, req.tenant).Ok? {
      assert JobOk(cfg, st, req.jobId);
      RunJobRecord(cfg, st, req);
      RecordKeepsInv(cfg, st, RunJob(cfg, st, req).0, req.jobId, req.dlqId);
    }
  }

  /** Any change to one job's record that adds a dead-letter item exactly when the job fails keeps the invariant. */
  lemma RecordKeepsInv(cfg: Config, st: Store, st': Store, jobId: string, dlqId: string)
    requires Inv(cfg, st) && jobId in st.jobs && dlqId !in st.dlq && st'.jobs.Keys == st.jobs.Keys
    requires forall j :: j in st.jobs && j != jobId ==> st'.jobs[j] == st.jobs[j]
    requires var job, job' := st.jobs[jobId], st'.jobs[jobId];
             && job'.tenant == job.tenant && job'.cancelled == job.cancelled && job'.retryCount <= cfg.maxRetries
             && !job'.status.DlqPending? && !job'.status.DlqRecorded?
             && (Terminal(job.status) ==> job' == job)
    requires if st'.jobs[jobId].status.Failed? && !st.jobs[jobId].status.Failed?
             then st'.dlq.Keys == st.dlq.Keys + {dlqId}
                  && st'.dlq[dlqId].jobId == jobId && st'.dlq[dlqId].tenant == st.jobs[jobId].tenant
                  && forall id :: id in st.dlq && id != dlqId ==> st'.dlq[id] == st.dlq[id]
             else st'.dlq == st.dlq
    ensures Inv(cfg, st')
  {
    assert JobOk(cfg, st, jobId);
    forall j | j in st'.jobs ensures JobOk(cfg, st', j) {
      DlqOfAfter(st, st', jobId, dlqId, j);
      JobStaysOk(cfg, st, st', jobId, dlqId, j);
    }
    forall id | id in st'.dlq
      ensures st'.dlq[id].jobId in st'.jobs && st'.dlq[id].tenant == st'.jobs[st'.dlq[id].jobId].tenant
    {
      if id in st.dlq {
        assert st.dlq[id].jobId in st.jobs;
      }
    }
  }

  lemma JobStaysOk(cfg: Config, st: Store, st': Store, jobId: string, dlqId: string, j: string)
    requires Inv(cfg, st) && j in st.jobs && j in st'.jobs && dlqId !in st.dlq
    requires DlqOf(st', j) == if st'.dlq != st.dlq && j == jobId then DlqOf(st, j) + {dlqId} else DlqOf(st, j)
    requires j != jobId ==> st'.jobs[j] == st.jobs[j]
    requires j == jobId ==>
               var job, job' := st.jobs[j], st'.jobs[j];
               && job'.cancelled == job.cancelled && job'.retryCount <= cfg.maxRetries
               && !job'.status.DlqPending? && !job'.status.DlqRecorded? && (Terminal(job.status) ==> job' == job)
               && (st'.dlq != st.dlq <==> job'.status.Failed? && !job.status.Failed?)
    ensures JobOk(cfg, st', j)
  {
    assert JobOk(cfg, st, j);
    assert dlqId !in DlqOf(st, j);
  }

  lemma DlqOfAfter(st: Store, st': Store, jobId: string, dlqId: string, j: string)
    requires dlqId !in st.dlq
    requires st'.dlq == st.dlq ||
             (&& st'.dlq.Keys == st.dlq.Keys + {dlqId} && st'.dlq[dlqId].jobId == jobId
              && forall id :: id in st.dlq && id != dlqId ==> st'.dlq[id] == st.dlq[id])
    ensures DlqOf(st', j) == if st'.dlq != st.dlq && j == jobId then DlqOf(st, j) + {dlqId} else DlqOf(st, j)
  {
    if st'.dlq != st.dlq {
      assert forall id :: id in st'.dlq ==> id == dlqId || id in st.dlq;
    }
  }

  /** Over any run of creations, job runs and cancellations, dead-letter items and failures agree one to one. */
  lemma {:induction false} RunKeepsInv(cfg: Config, st: Store, ops: seq<Op>)
    requires Inv(cfg, st) && FreshRun(cfg, st, ops)
    ensures Inv(cfg, Run(cfg, st, ops))
    decreases |ops|
  {
    if ops != [] {
      StepKeepsInv(cfg, st, ops[0]);
      RunKeepsInv(cfg, Apply(cfg, st, ops[0]), ops[1..]);
    }
  }

  /** Succeeded and failed are absorbing: nothing later changes the job's record or its dead-letter items. */
  lemma {:induction false} TerminalStays(cfg: Config, st: Store, ops: seq<Op>, jobId: string)
    requires FreshRun(cfg, st, ops) && jobId in st.jobs && Terminal(st.jobs[jobId].status)
    ensures jobId in Run(cfg, st, ops).jobs && Run(cfg, st, ops).jobs[jobId] == st.jobs[jobId]
    ensures DlqOf(Run(cfg, st, ops), jobId) == DlqOf(st, jobId)
    decreases |ops|
  {
    if ops != [] {
      var st' := Apply(cfg, st, ops[0]);
      assert st'.jobs[jobId] == st.jobs[jobId];
      assert DlqOf(st', jobId) == DlqOf(st, jobId);
      TerminalStays(cfg, st', ops[1..], jobId);
    }
  }

  /** A job can be cancelled exactly while it is not final; then it has failed for good, without a dead-letter item. */
  lemma CancelIsFinal(cfg: Config, st: Store, jobId: string, tenant: string, ops: seq<Op>)
    requires Inv(cfg, st) && FreshRun(cfg, Cancel(st, jobId, tenant).0, ops)
    ensures var (st', r) := Cancel(st, jobId, tenant);
            && (r.Ok? <==> Find(st, jobId, tenant).Ok? && st.jobs[jobId].status !in {Succeeded, Failed})
            && (r.Err? ==> st' == st)
            && (r.Ok? ==>
                  && jobId in Run(cfg, st', ops).jobs
                  && Run(cfg, st', ops).jobs[jobId] == st.jobs[jobId].(status := Failed, cancelled := true)
                  && DlqOf(Run(cfg, st', ops), jobId) == {})
  {
    var (st', r) := Cancel(st, jobId, tenant);
    if r.Ok? {
      TerminalStays(cfg, st', ops, jobId);
      assert JobOk(cfg, st, jobId);
      assert DlqOf(st', jobId) == DlqOf(st, jobId);
    }
  }

  /** The retrying answers a run of calls gave for one job: their delays, in order. */
  ghost function RetryDelays(cfg: Config, st: Store, ops: seq<Op>, jobId: string): seq<int>
    decreases |ops|
  {
    if ops == [] then []
    else
      var rest := RetryDelays(cfg, Apply(cfg, st, ops[0]), ops[1..], jobId);
      if ops[0].RunOp? && ops[0].req.jobId == jobId then
        match RunJob(cfg, st, ops[0].req).1
        case Ok(r) => if r.finalStatus.Retrying? then [r.retryAfterMs] + rest else rest
        case Err(_) => rest
      else rest
  }

  /** The i-th retrying answer of a run gives the delay of the job's next retry count. */
  lemma {:induction false} DelaysByCount(cfg: Config, st: Store, ops: seq<Op>, jobId: string, i: nat)
    requires FreshRun(cfg, st, ops) && jobId in st.jobs && i < |RetryDelays(cfg, st, ops, jobId)|
    ensures RetryDelays(cfg, st, ops, jobId)[i] == RetryBackoffMs(cfg, jobId, st.jobs[jobId].retryCount + i + 1)
    decreases |ops|
  {
    var st' := Apply(cfg, st, ops[0]);
    var rest := RetryDelays(cfg, st', ops[1..], jobId);
    if RetryDelays(cfg, st, ops, jobId) == rest && st'.jobs[jobId].retryCount == st.jobs[jobId].retryCount {
      DelaysByCount(cfg, st', ops[1..], jobId, i);
    } else if i > 0 {
      DelaysByCount(cfg, st', ops[1..], jobId, i - 1);
    }
  }

  /**
   * The delays a run answers, less their jitter: the first retry of a job waits the base, and each later one twice as
   * long as the one before it, up to the larger of base and maximum.
   */
  lemma DelaysDouble(cfg: Config, st: Store, ops: seq<Op>, jobId: string, i: nat)
    requires FreshRun(cfg, st, ops) && jobId in st.jobs && i < |RetryDelays(cfg, st, ops, jobId)|
    ensures var delays, n := RetryDelays(cfg, st, ops, jobId), st.jobs[jobId].retryCount + i + 1;
            var base := Max(0, cfg.backoffBaseMs);
            && (n == 1 ==> delays[i] - RetryJitterMs(cfg, jobId, n) == base)
            && (i > 0 ==> delays[i] - RetryJitterMs(cfg, jobId, n)
                            == Min(Max(base, cfg.backoffMaxMs),
                                   2 * (delays[i - 1] - RetryJitterMs(cfg, jobId, n - 1))))
  {
    var n := st.jobs[jobId].retryCount + i + 1;
    DelaysByCount(cfg, st, ops, jobId, i);
    BackoffDoubles(cfg, jobId, if n > 1 then n - 1 else 1);
    if i > 0 {
      DelaysByCount(cfg, st, ops, jobId, i - 1);
    }
  }

  ghost function Sum(s: seq<int>): int {
    if s == [] then 0 else s[0] + Sum(s[1..])
  }

  /**
   * A job is told to retry at most `maxRetries` times in any run, once per step of its retry count, and all the
   * delays together stay below that many times the longest single delay.
   */
  lemma {:induction false} RetriesAreBounded(cfg: Config, st: Store, ops: seq<Op>, jobId: string)
    requires FreshRun(cfg, st, ops) && jobId in st.jobs && st.jobs[jobId].retryCount <= cfg.maxRetries
    ensures jobId in Run(cfg, st, ops).jobs
    ensures var delays := RetryDelays(cfg, st, ops, jobId);
            && |delays| == Run(cfg, st, ops).jobs[jobId].retryCount - st.jobs[jobId].retryCount
            && |delays| <= cfg.maxRetries - st.jobs[jobId].retryCount
            && 0 <= Sum(delays) <= |delays| * (BackoffCap(cfg) + 300)
    decreases |ops|
  {
    if ops != [] {
      var st' := Apply(cfg, st, ops[0]);
      RetriesAreBounded(cfg, st', ops[1..], jobId);
      var rest := RetryDelays(cfg, st', ops[1..], jobId);
      if RetryDelays(cfg, st, ops, jobId) != rest {
        BackoffBounds(cfg, jobId, st.jobs[jobId].retryCount + 1);
        SumBound(RetryDelays(cfg, st, ops, jobId)[0], rest, BackoffCap(cfg) + 300);
      }
    }
  }

  lemma SumBound(d: int, rest: seq<int>, longest: int)
    requires 0 <= d <= longest && 0 <= Sum(rest) <= |rest| * longest
    ensures 0 <= Sum([d] + rest) <= |[d] + rest| * longest
  {
    assert ([d] + rest)[1..] == rest;
    assert |[d] + rest| * longest == |rest| * longest + longest;
  }

  // ---- The parse manifest next to its job ----

  ghost predicate Mirrored(st: Store, jobId: string) {
    jobId in st.jobs && jobId in st.manifests && st.manifests[jobId] == st.jobs[jobId].status
  }

  /**
   * A run keeps the manifest of a parse job in step with the job exactly when it is not refused for the job's
   * status: the refused run has already set the manifest back to running.
   */
  lemma RunMirrorsUnlessRefused(cfg: Config, st: Store, req: RunRequest)
    requires Mirrored(st, req.jobId) && st.jobs[req.jobId].kind.Parse?
    ensures Mirrored(RunJob(cfg, st, req).0, req.jobId) <==>
              st.jobs[req.jobId].tenant != req.tenant || CanRun(st.jobs[req.jobId].status)
  {
  }

  /** In every run from the start exactly the parse jobs have a manifest, and it begins in step with the job. */
  lemma {:induction false} ParseJobsHaveManifests(cfg: Config, st: Store, ops: seq<Op>, jobId: string)
    requires FreshRun(cfg, st, ops) && (jobId in st.manifests <==> jobId in st.jobs && st.jobs[jobId].kind == Parse)
    ensures var st' := Run(cfg, st, ops);
            jobId in st'.manifests <==> jobId in st'.jobs && st'.jobs[jobId].kind == Parse
    decreases |ops|
  {
    if ops != [] {
      ParseJobsHaveManifests(cfg, Apply(cfg, st, ops[0]), ops[1..], jobId);
    }
  }

  lemma CreatedIsMirrored(st: Store, jobId: string, tenant: string, kind: Kind)
    requires jobId !in st.jobs && jobId !in st.manifests
    ensures var st' := Create(st, jobId, tenant, kind);
            && st'.jobs[jobId] == Job(tenant, kind, Queued, 0, false)
            && (kind == Parse ==> Mirrored(st', jobId)) && (kind != Parse ==> st'.manifests == st.manifests)
  {
  }

  /** Running a parse job again after it succeeded answers with an error and leaves its manifest at running. */
  lemma RefusedRunUnsettlesManifest(cfg: Config)
    ensures var st := Store(map["j" := Job("t", Parse, Succeeded, 0, false)], map["j" := Succeeded], map[]);
            var (st', r) := RunJob(cfg, st, RunRequest("j", "t", false, false, "", Completes, "d"));
            Mirrored(st, "j") && r == Err(TransitionInvalid) && st'.manifests["j"] == Running && st'.jobs == st.jobs
  {
  }

  /**
   * A run answers with an error and yet leaves a job succeeded that was not, exactly when no failure is forced, the job
   * is a parse job of the tenant that can run, and its work raises after the status was written.
   */
  lemma SucceededBeforeParsed(cfg: Config, st: Store, req: RunRequest)
    ensures var (st', r) := RunJob(cfg, st, req);
            (r.Err? && exists j :: NewlySucceeded(st, st', j)) <==>
              && Find(st, req.jobId, req.tenant).Ok?
              && st.jobs[req.jobId].kind.Parse? && CanRun(st.jobs[req.jobId].status)
              && !req.forceFail && !req.transientFail && req.execution.RaisesAfterSuccess?
  {
    var (st', r) := RunJob(cfg, st, req);
    if Find(st, req.jobId, req.tenant).Ok? && CanRun(st.jobs[req.jobId].status) {
      assert NewlySucceeded(st, st', req.jobId) <==> st'.jobs[req.jobId].status == Succeeded;
    }
  }

  /**
   * The answers of a run, each if and only if: a retry is granted for a transient failure while retries are left; a
   * failure is recorded when it is forced or no retry is left; a decision is asked for by evaluations only; everything
   * else that does not raise succeeds.
   */
  lemma AnswersIff(cfg: Config, st: Store, req: RunRequest)
    requires Find(st, req.jobId, req.tenant).Ok? && CanRun(st.jobs[req.jobId].status)
    ensures var r, job := RunJob(cfg, st, req).1, st.jobs[req.jobId];
            var forced := req.forceFail || (req.transientFail && job.retryCount >= cfg.maxRetries);
            var retried := req.transientFail && !req.forceFail && job.retryCount < cfg.maxRetries;
            var decides := req.execution.AsksForDecision? && job.kind.Evaluation?;
            var raises := req.execution.RaisesWhileRunning?
                          || (req.execution.RaisesAfterSuccess? && job.kind.Parse?);
            && (r.Ok? && r.value.finalStatus == Retrying <==> retried)
            && (r.Ok? && r.value.finalStatus == Failed <==> forced)
            && (r.Ok? && r.value.finalStatus == NeedsManualDecision <==> !retried && !forced && decides)
            && (r.Ok? && r.value.finalStatus == Succeeded <==> !retried && !forced && !decides && !raises)
            && (r.Err? <==> !retried && !forced && raises)
  {
  }

  /** The recorded failure names the job, its tenant, and the given code, or the code of its cause. */
  lemma FailureIsRecorded(cfg: Config, st: Store, req: RunRequest)
    requires req.dlqId !in st.dlq
    ensures var st' := RunJob(cfg, st, req).0;
            req.dlqId in st'.dlq ==>
              && st'.dlq[req.dlqId].jobId == req.jobId && Find(st, req.jobId, st'.dlq[req.dlqId].tenant).Ok?
              && var job := st.jobs[req.jobId];
                 st'.dlq[req.dlqId].errorCode
                   == if req.errorCode != "" then req.errorCode
                      else if !req.forceFail then "RAG_UPSTREAM_UNAVAILABLE"
                      else if job.kind == Parse then "DOC_PARSE_OUTPUT_NOT_FOUND" else "INTERNAL_DEBUG_FORCED_FAIL"
  {
  }

  predicate NewlySucceeded(st: Store, st': Store, jobId: string) {
    && jobId in st.jobs && st.jobs[jobId].status != Succeeded
    && jobId in st'.jobs && st'.jobs[jobId].status == Succeeded
  }
}
