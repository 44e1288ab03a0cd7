/** Resuming an interrupted evaluation: one-time tokens, idempotency records and the resume jobs they create. */
module ResumeTokens {
  import opened Basics
  import opened PythonStrings

  datatype Token = Token(token: string, tenant: string, used: bool, issuedAt: int)

  /** The request body; its JSON text is the fingerprint, so equal bodies and equal fingerprints are the same. */
  datatype Payload = Payload(token: string, reviewer: string, decision: string, comment: string)

  datatype Receipt = Receipt(evaluation: string, job: string)

  datatype Record = Record(fingerprint: Payload, data: Receipt)

  datatype Job = Job(evaluation: string, tenant: string, thread: string, payload: Payload)

  datatype EvaluationReport = EvaluationReport(tenant: string, thread: string, needsReview: bool, interrupted: bool)

  datatype Audit = Audit(tenant: string, evaluation: string, reviewer: string, decision: string, comment: string)

  datatype Event = Event(tenant: string, job: string, evaluation: string)

  datatype Error = IdempotencyMissing | ReviewerRequired | IdempotencyConflict | TenantScopeViolation | ResumeInvalid

  /** Records are keyed by scope and idempotency key. */
  datatype State = State(tokens: map<string, Token>, records: map<(string, string), Record>, jobs: map<string, Job>,
                         reports: map<string, EvaluationReport>, audit: seq<Audit>, outbox: seq<Event>)

  /** A resume request, with the identifiers and the time its handling draws. */
  datatype Request = Request(tenant: string, evaluation: string, key: Option<string>, payload: Payload,
                             newJob: string, newThread: string, now: int)

  const ROUTE := ":POST:/api/v1/evaluations/"

  function Scope(tenant: string, evaluation: string): string {
    tenant + ROUTE + evaluation + "/resume"
  }

  // ---- The state after each operation ----

  function Registered(s: State, evaluation: string, token: string, tenant: string, now: int): State {
    s.(tokens := s.tokens[evaluation := Token(token, tenant, false, now)])
  }

  function Validated(s: State, evaluation: string, token: string, tenant: string, now: int, ttl: int)
    : Result<bool, Error> {
    if evaluation !in s.tokens then Ok(false)
    else
      var t := s.tokens[evaluation];
      if t.tenant != tenant then Err(TenantScopeViolation)
      else Ok(t.token == token && !t.used && now <= t.issuedAt + ttl)
  }

  function Consumed(s: State, evaluation: string): State
    requires evaluation in s.tokens
  {
    s.(tokens := s.tokens[evaluation := s.tokens[evaluation].(used := true)])
  }

  function OwnReport(s: State, evaluation: string, tenant: string): Option<EvaluationReport> {
    if evaluation in s.reports && s.reports[evaluation].tenant == tenant then Some(s.reports[evaluation]) else None
  }

  function Created(s: State, r: Request): State {
    var report := OwnReport(s, r.evaluation, r.tenant);
    var thread := if report.Some? && report.value.thread != "" then report.value.thread else r.newThread;
    s.(jobs := s.jobs[r.newJob := Job(r.evaluation, r.tenant, thread, r.payload)],
       reports := if report.Some? then
         s.reports[r.evaluation := report.value.(needsReview := false, interrupted := false)]
                  else s.reports,
       audit := s.audit + [Audit(r.tenant, r.evaluation, r.payload.reviewer, r.payload.decision, r.payload.comment)],
       outbox := s.outbox + [Event(r.tenant, r.newJob, r.evaluation)])
  }

  function Executed(s: State, r: Request, ttl: int): (State, Result<Receipt, Error>) {
    match Validated(s, r.evaluation, r.payload.token, r.tenant, r.now, ttl)
    case Err(e) => (s, Err(e))
    case Ok(false) => (s, Err(ResumeInvalid))
    case Ok(true) => (Created(Consumed(s, r.evaluation), r), Ok(Receipt(r.evaluation, r.newJob)))
  }

  function Resumed(s: State, r: Request, ttl: int): (State, Result<Receipt, Error>) {
    if r.key.None? || r.key.value == "" then (s, Err(IdempotencyMissing))
    else if Strip(r.payload.reviewer) == "" then (s, Err(ReviewerRequired))
    else
      var k := (Scope(r.tenant, r.evaluation), r.key.value);
      if k in s.records then
        if s.records[k].fingerprint != r.payload then (s, Err(IdempotencyConflict)) else (s, Ok(s.records[k].data))
      else
        var (s', result) := Executed(s, r, ttl);
        if result.Err? then (s', result) else (s'.(records := s'.records[k := Record(r.payload, result.value)]), result)
  }

  class ResumeStore {
    var tokens: map<string, Token>
    var records: map<(string, string), Record>
    var jobs: map<string, Job>
    var reports: map<string, EvaluationReport>
    var audit: seq<Audit>
    var outbox: seq<Event>
    const ttl: int

    constructor (ttl: int)
      ensures Value() == EMPTY && this.ttl == ttl
    {
      tokens, records, jobs, reports, audit, outbox := map[], map[], map[], map[], [], [];
      this.ttl := ttl;
    }

    function Value(): State
      reads this
    {
      State(tokens, records, jobs, reports, audit, outbox)
    }

    method RegisterResumeToken(evaluation: string, token: string, tenant: string, now: int)
      modifies this
      ensures Value() == Registered(old(Value()), evaluation, token, tenant, now)
    {
      tokens := tokens[evaluation := Token(token, tenant, false, now)];
    }

    method ValidateResumeToken(evaluation: string, token: string, tenant: string, now: int)
      returns (valid: Result<bool, Error>)
      ensures valid == Validated(Value(), evaluation, token, tenant, now, ttl)
    {
      if evaluation !in tokens {
        return Ok(false);
      }
      var record := tokens[evaluation];
      if record.tenant != tenant {
        return Err(TenantScopeViolation);
      }
      if record.token != token || record.used {
        return Ok(false);
      }
      valid := Ok(now <= record.issuedAt + ttl);
    }

    method ConsumeResumeToken(evaluation: string, token: string, tenant: string, now: int)
      returns (done: Result<bool, Error>)
      modifies this
      ensures done == Validated(old(Value()), evaluation, token, tenant, now, ttl)
      ensures Value() == if done == Ok(true) then Consumed(old(Value()), evaluation) else old(Value())
    {
      done := ValidateResumeToken(evaluation, token, tenant, now);
      if done == Ok(true) {
        tokens := tokens[evaluation := tokens[evaluation].(used := true)];
      }
    }

    method CreateResumeJob(r: Request) returns (receipt: Receipt)
      modifies this
      ensures Value() == Created(old(Value()), r) && receipt == Receipt(r.evaluation, r.newJob)
    {
      var thread := "";
      var report := OwnReport(Value(), r.evaluation, r.tenant);
      if report.Some? {
        thread := report.value.thread;
      }
      if thread == "" {
        thread := r.newThread;
      }
      jobs := jobs[r.newJob := Job(r.evaluation, r.tenant, thread, r.payload)];
      if report.Some? {
        reports := reports[r.evaluation := report.value.(needsReview := false, interrupted := false)];
      }
      audit := audit + [Audit(r.tenant, r.evaluation, r.payload.reviewer, r.payload.decision, r.payload.comment)];
      outbox := outbox + [Event(r.tenant, r.newJob, r.evaluation)];
      receipt := Receipt(r.evaluation, r.newJob);
    }

    method ExecuteResume(r: Request) returns (result: Result<Receipt, Error>)
      modifies this
      ensures (Value(), result) == Executed(old(Value()), r, ttl)
    {
      var done := ConsumeResumeToken(r.evaluation, r.payload.token, r.tenant, r.now);
      if done.Err? {
        return Err(done.error);
      }
      if !done.value {
        return Err(ResumeInvalid);
      }
      var receipt := CreateResumeJob(r);
      result := Ok(receipt);
    }

    method ResumeEvaluation(r: Request) returns (result: Result<Receipt, Error>)
      modifies this
      ensures (Value(), result) == Resumed(old(Value()), r, ttl)
    {
      if r.key.None? || r.key.value == "" {
        return Err(IdempotencyMissing);
      }
      if Strip(r.payload.reviewer) == "" {
        return Err(ReviewerRequired);
      }
      var key := (Scope(r.tenant, r.evaluation), r.key.value);
      if key in records {
        var record := records[key];
        if record.fingerprint != r.payload {
          return Err(IdempotencyConflict);
        }
        return Ok(record.data);
      }
      result := ExecuteResume(r);
      if result.Ok? {
        records := records[key := Record(r.payload, result.value)];
      }
    }
  }

  // ---- Runs ----

  datatype Step = Register(evaluation: string, token: string, tenant: string, now: int) | Resume(request: Request)

  function Next(s: State, step: Step, ttl: int): State {
    match step
    case Register(e, t, tenant, now) => Registered(s, e, t, tenant, now)
    case Resume(r) => Resumed(s, r, ttl).0
  }

  function After(s: State, steps: seq<Step>, ttl: int): State
    decreases |steps|
  {
    if steps == [] then s else After(Next(s, steps[0], ttl), steps[1..], ttl)
  }

  /** The resume jobs announced for an evaluation. */
  function Resumes(outbox: seq<Event>, evaluation: string): nat {
    if outbox == [] then 0
    else Resumes(outbox[..|outbox| - 1], evaluation) + (if outbox[|outbox| - 1].evaluation == evaluation then 1 else 0)
  }

  function Registrations(steps: seq<Step>, evaluation: string): nat
    decreases |steps|
  {
    if steps == [] then 0
    else (if steps[0].Register? && steps[0].evaluation == evaluation then 1 else 0)
         + Registrations(steps[1..], evaluation)
  }

  /** One if the evaluation has a token that is not used. */
  function Unused(s: State, evaluation: string): nat {
    if evaluation in s.tokens && !s.tokens[evaluation].used then 1 else 0
  }

  lemma StepSpends(s: State, step: Step, ttl: int, e: string)
    ensures Resumes(Next(s, step, ttl).outbox, e) + Unused(Next(s, step, ttl), e)
         <= Resumes(s.outbox, e) + Unused(s, e) + (if step.Register? && step.evaluation == e then 1 else 0)
  {
    if step.Resume? {
      var r := step.request;
      var added := s.outbox + [Event(r.tenant, r.newJob, r.evaluation)];
      assert added[..|added| - 1] == s.outbox;
    }
  }

  /** Over any run, from any state, at most one creation is announced for each token the evaluation has or is given. */
  lemma {:induction false} AnnouncementsAreBounded(s: State, steps: seq<Step>, ttl: int, e: string)
    ensures var s' := After(s, steps, ttl);
            Resumes(s'.outbox, e) + Unused(s', e) <= Resumes(s.outbox, e) + Unused(s, e) + Registrations(steps, e)
    decreases |steps|
  {
    if steps != [] {
      StepSpends(s, steps[0], ttl, e);
      AnnouncementsAreBounded(Next(s, steps[0], ttl), steps[1..], ttl, e);
    }
  }

  /** The resume jobs of an evaluation. */
  ghost function JobsOf(s: State, evaluation: string): set<string> {
    set j | j in s.jobs && s.jobs[j].evaluation == evaluation
  }

  /** Every job has an event of its own evaluation, and every event's job exists. */
  ghost predicate Announced(s: State) {
    && (forall j :: j in s.jobs ==> HasEvent(s.outbox, j, s.jobs[j].evaluation))
    && (forall event :: event in s.outbox ==> event.job in s.jobs)
  }

  ghost predicate HasEvent(outbox: seq<Event>, job: string, evaluation: string) {
    exists event :: event in outbox && event.job == job && event.evaluation == evaluation
  }

  /** One job of the evaluation was stored, and announced at the end of the outbox. */
  ghost predicate Adds(s: State, s': State, event: Event) {
    && event.job in s'.jobs && s'.jobs[event.job].evaluation == event.evaluation
    && s'.jobs == s.jobs[event.job := s'.jobs[event.job]] && s'.outbox == s.outbox + [event]
  }

  /** A step stores and announces one job, or leaves jobs and outbox alone. */
  lemma StepAdds(s: State, step: Step, ttl: int)
    ensures var s' := Next(s, step, ttl);
            || (s'.jobs == s.jobs && s'.outbox == s.outbox)
            || (step.Resume? && Adds(s, s', Event(step.request.tenant, step.request.newJob, step.request.evaluation)))
  {
  }

  lemma AddingAnnounces(s: State, s': State, event: Event)
    requires Announced(s) && Adds(s, s', event)
    ensures Announced(s')
  {
    assert event in s'.outbox;
    forall j | j in s'.jobs ensures HasEvent(s'.outbox, j, s'.jobs[j].evaluation) {
      if j != event.job {
        assert HasEvent(s.outbox, j, s.jobs[j].evaluation);
        var other :| other in s.outbox && other.job == j && other.evaluation == s.jobs[j].evaluation;
        assert other in s'.outbox;
      }
    }
  }

  lemma StepAnnounces(s: State, step: Step, ttl: int)
    requires Announced(s)
    ensures Announced(Next(s, step, ttl))
  {
    var s' := Next(s, step, ttl);
    StepAdds(s, step, ttl);
    if s'.jobs != s.jobs || s'.outbox != s.outbox {
      AddingAnnounces(s, s', Event(step.request.tenant, step.request.newJob, step.request.evaluation));
    }
  }

  lemma AddingCounts(s: State, s': State, event: Event, e: string)
    requires Adds(s, s', event)
    ensures |JobsOf(s', e)| - |JobsOf(s, e)| <= Resumes(s'.outbox, e) - Resumes(s.outbox, e)
  {
    var more := if event.evaluation == e then {event.job} else {};
    assert s'.outbox[..|s'.outbox| - 1] == s.outbox;
    forall j | j in JobsOf(s', e) ensures j in JobsOf(s, e) + more {
    }
    Fewer(JobsOf(s', e), JobsOf(s, e) + more);
  }

  /** A step adds at most the job it announces. */
  lemma StepAddsJobs(s: State, step: Step, ttl: int, e: string)
    ensures |JobsOf(Next(s, step, ttl), e)| - |JobsOf(s, e)|
              <= Resumes(Next(s, step, ttl).outbox, e) - Resumes(s.outbox, e)
  {
    var s' := Next(s, step, ttl);
    StepAdds(s, step, ttl);
    if s'.jobs == s.jobs && s'.outbox == s.outbox {
      assert JobsOf(s', e) == JobsOf(s, e);
    } else {
      AddingCounts(s, s', Event(step.request.tenant, step.request.newJob, step.request.evaluation), e);
    }
  }

  lemma Fewer(a: set<string>, b: set<string>)
    requires a <= b
    ensures |a| <= |b|
  {
    assert b == a + (b - a);
  }

  /** Over any run jobs and announcements agree, and an evaluation has at most as many jobs as announcements. */
  lemma {:induction false} RunAnnounces(s: State, steps: seq<Step>, ttl: int, e: string)
    requires Announced(s) && |JobsOf(s, e)| <= Resumes(s.outbox, e)
    ensures var s' := After(s, steps, ttl); Announced(s') && |JobsOf(s', e)| <= Resumes(s'.outbox, e)
    decreases |steps|
  {
    if steps != [] {
      StepAnnounces(s, steps[0], ttl);
      StepAddsJobs(s, steps[0], ttl, e);
      RunAnnounces(Next(s, steps[0], ttl), steps[1..], ttl, e);
    }
  }

  /** Over any run, from any state, the jobs of an evaluation grow by at most one for each token it has or is given. */
  lemma {:induction false} ResumesAreBounded(s: State, steps: seq<Step>, ttl: int, e: string)
    ensures var s' := After(s, steps, ttl);
            |JobsOf(s', e)| + Unused(s', e) <= |JobsOf(s, e)| + Unused(s, e) + Registrations(steps, e)
    decreases |steps|
  {
    if steps != [] {
      StepSpends(s, steps[0], ttl, e);
      StepAddsJobs(s, steps[0], ttl, e);
      ResumesAreBounded(Next(s, steps[0], ttl), steps[1..], ttl, e);
    }
  }

  const EMPTY := State(map[], map[], map[], map[], [], [])

  lemma StartAnnounces(e: string)
    ensures Announced(EMPTY) && JobsOf(EMPTY, e) == {} && Resumes(EMPTY.outbox, e) == 0 && Unused(EMPTY, e) == 0
  {
  }

  /** From the start, an evaluation never has more resume jobs than tokens were registered for it. */
  lemma JobsNeverOutnumberTokens(steps: seq<Step>, ttl: int, e: string)
    ensures var s := After(EMPTY, steps, ttl);
            && Announced(s)
            && |JobsOf(s, e)| <= Resumes(s.outbox, e) <= Registrations(steps, e)
  {
    StartAnnounces(e);
    RunAnnounces(EMPTY, steps, ttl, e);
    AnnouncementsAreBounded(EMPTY, steps, ttl, e);
  }

  // ---- Idempotency ----

  lemma {:induction false} RecordsStay(s: State, steps: seq<Step>, ttl: int, k: (string, string))
    requires k in s.records
    ensures k in After(s, steps, ttl).records && After(s, steps, ttl).records[k] == s.records[k]
    decreases |steps|
  {
    if steps != [] {
      RecordsStay(Next(s, steps[0], ttl), steps[1..], ttl, k);
    }
  }

  /**
   * After a success, whatever happens in between, the same request under the same key gets the same receipt and changes
   * nothing.
   */
  lemma ReplayReturnsTheFirst(s: State, r: Request, steps: seq<Step>, again: Request, ttl: int)
    requires Resumed(s, r, ttl).1.Ok?
    requires again.tenant == r.tenant && again.evaluation == r.evaluation && again.key == r.key
    requires again.payload == r.payload
    ensures var s' := After(Resumed(s, r, ttl).0, steps, ttl);
            Resumed(s', again, ttl) == (s', Resumed(s, r, ttl).1)
  {
    RecordsStay(Resumed(s, r, ttl).0, steps, ttl, (Scope(r.tenant, r.evaluation), r.key.value));
  }

  /** After a success, a different body under the same key is a conflict, forever. */
  lemma OtherBodyConflicts(s: State, r: Request, steps: seq<Step>, other: Request, ttl: int)
    requires Resumed(s, r, ttl).1.Ok? && Strip(other.payload.reviewer) != ""
    requires other.tenant == r.tenant && other.evaluation == r.evaluation && other.key == r.key
    requires other.payload != r.payload
    ensures var s' := After(Resumed(s, r, ttl).0, steps, ttl);
            Resumed(s', other, ttl) == (s', Err(IdempotencyConflict))
  {
    var k := (Scope(r.tenant, r.evaluation), r.key.value);
    RecordsStay(Resumed(s, r, ttl).0, steps, ttl, k);
    RecordHasBody(s, r, ttl);
  }

  lemma RecordHasBody(s: State, r: Request, ttl: int)
    requires Resumed(s, r, ttl).1.Ok?
    ensures var k := (Scope(r.tenant, r.evaluation), r.key.value);
            k in Resumed(s, r, ttl).0.records
            && Resumed(s, r, ttl).0.records[k] == Record(r.payload, Resumed(s, r, ttl).1.value)
  {
  }

  /** A rejected request changes nothing; a request changes something exactly when it is a first success. */
  lemma RejectedChangesNothing(s: State, r: Request, ttl: int)
    ensures Resumed(s, r, ttl).1.Err? ==> Resumed(s, r, ttl).0 == s
    ensures |Resumed(s, r, ttl).0.outbox| == |s.outbox| + 1 <==>
              && Resumed(s, r, ttl).1.Ok?
              && (Scope(r.tenant, r.evaluation), r.key.value) !in s.records
  {
  }

  // ---- A token works once ----

  ghost predicate Spent(s: State, evaluation: string, token: string) {
    evaluation in s.tokens ==> s.tokens[evaluation].used || s.tokens[evaluation].token != token
  }

  lemma {:induction false} SpentStaysSpent(s: State, steps: seq<Step>, ttl: int, e: string, token: string)
    requires Spent(s, e, token)
    requires forall i :: 0 <= i < |steps| && steps[i].Register? && steps[i].evaluation == e ==> steps[i].token != token
    ensures Spent(After(s, steps, ttl), e, token)
    decreases |steps|
  {
    if steps != [] {
      var s' := Next(s, steps[0], ttl);
      assert Spent(s', e, token);
      SpentStaysSpent(s', steps[1..], ttl, e, token);
    }
  }

  lemma SuccessSpends(s: State, r: Request, ttl: int)
    requires Resumed(s, r, ttl).1.Ok? && (Scope(r.tenant, r.evaluation), r.key.value) !in s.records
    ensures Spent(Resumed(s, r, ttl).0, r.evaluation, r.payload.token)
  {
  }

  lemma SpentChangesNothing(s: State, r: Request, ttl: int)
    requires Spent(s, r.evaluation, r.payload.token)
    ensures Resumed(s, r, ttl).0 == s
  {
  }

  /** Once a resume succeeded with a token, no request creates a job with it until it is registered again. */
  lemma TokenWorksOnce(s: State, r: Request, steps: seq<Step>, again: Request, ttl: int)
    requires Resumed(s, r, ttl).1.Ok? && (Scope(r.tenant, r.evaluation), r.key.value) !in s.records
    requires forall i :: 0 <= i < |steps| && steps[i].Register? && steps[i].evaluation == r.evaluation ==>
               steps[i].token != r.payload.token
    requires again.evaluation == r.evaluation && again.payload.token == r.payload.token
    ensures var s' := After(Resumed(s, r, ttl).0, steps, ttl);
            Resumed(s', again, ttl).0 == s'
  {
    SuccessSpends(s, r, ttl);
    SpentStaysSpent(Resumed(s, r, ttl).0, steps, ttl, r.evaluation, r.payload.token);
    SpentChangesNothing(After(Resumed(s, r, ttl).0, steps, ttl), again, ttl);
  }

  // ---- Scopes do not collide ----

  ghost predicate SlashFree(s: string) {
    forall i :: 0 <= i < |s| ==> s[i] != '/'
  }

  /** Evaluation ids are path segments and hold no slash, so tenant and evaluation can be read off the scope. */
  lemma ScopeInjective(t1: string, e1: string, t2: string, e2: string)
    requires SlashFree(e1) && SlashFree(e2) && Scope(t1, e1) == Scope(t2, e2)
    ensures t1 == t2 && e1 == e2
  {
    var a, b := t1 + ROUTE + e1, t2 + ROUTE + e2;
    assert Scope(t1, e1)[..|a|] == a && Scope(t2, e2)[..|b|] == b && |a| == |b|;
    assert a == b;
    LastSlash(t1, e1, t2, e2);
    assert (t1 + ROUTE)[..|t1|] == t1 && (t2 + ROUTE)[..|t2|] == t2;
    assert a[..|t1 + ROUTE|] == t1 + ROUTE && b[..|t2 + ROUTE|] == t2 + ROUTE;
    assert a[|t1 + ROUTE|..] == e1 && b[|t2 + ROUTE|..] == e2;
  }

  lemma LastSlash(t1: string, e1: string, t2: string, e2: string)
    requires SlashFree(e1) && SlashFree(e2) && t1 + ROUTE + e1 == t2 + ROUTE + e2
    ensures |t1| == |t2|
  {
    var a, b := t1 + ROUTE + e1, t2 + ROUTE + e2;
    var i, j := |t1 + ROUTE| - 1, |t2 + ROUTE| - 1;
    assert ROUTE[|ROUTE| - 1] == '/';
    assert a[i] == '/' && b[j] == '/';
    assert forall k :: |t1 + ROUTE| <= k < |a| ==> a[k] == e1[k - |t1 + ROUTE|];
    assert forall k :: |t2 + ROUTE| <= k < |b| ==> b[k] == e2[k - |t2 + ROUTE|];
  }
}
