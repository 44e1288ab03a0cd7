/** When a resume succeeds, read off the history of requests alone: the last token, its age, and what it bought. */
module ResumeHistory {
  import opened Basics
  import opened PythonStrings
  import opened ResumeTokens

  /** The state before step n of a run from the start. */
  function Before(steps: seq<Step>, n: nat, ttl: int): State
    requires n <= |steps|
  {
    After(EMPTY, steps[..n], ttl)
  }

  lemma {:induction false} AfterLast(s: State, steps: seq<Step>, step: Step, ttl: int)
    ensures After(s, steps + [step], ttl) == Next(After(s, steps, ttl), step, ttl)
    decreases |steps|
  {
    if steps == [] {
      assert ([] + [step])[1..] == [];
    } else {
      assert (steps + [step])[0] == steps[0] && (steps + [step])[1..] == steps[1..] + [step];
      AfterLast(Next(s, steps[0], ttl), steps[1..], step, ttl);
    }
  }

  lemma BeforeNext(steps: seq<Step>, n: nat, ttl: int)
    requires n < |steps|
    ensures Before(steps, n + 1, ttl) == Next(Before(steps, n, ttl), steps[n], ttl)
  {
    assert steps[..n + 1] == steps[..n] + [steps[n]];
    AfterLast(EMPTY, steps[..n], steps[n], ttl);
  }

  // ---- What the history says of a token ----

  predicate Registers(step: Step, e: string) {
    step.Register? && step.evaluation == e
  }

  /** Step i gave the evaluation the token it has before step n. */
  ghost predicate LastRegistered(steps: seq<Step>, n: nat, e: string, i: int)
    requires n <= |steps|
  {
    0 <= i < n && Registers(steps[i], e) && forall j :: i < j < n ==> !Registers(steps[j], e)
  }

  /** Step j is a resume of the evaluation, and it announced a job. */
  ghost predicate Buys(steps: seq<Step>, j: int, e: string, ttl: int)
    requires 0 <= j < |steps|
  {
    && steps[j].Resume? && steps[j].request.evaluation == e
    && |Before(steps, j + 1, ttl).outbox| > |Before(steps, j, ttl).outbox|
  }

  ghost predicate Bought(steps: seq<Step>, from: int, n: nat, e: string, ttl: int)
    requires 0 <= from && n <= |steps|
  {
    exists j :: from <= j < n && Buys(steps, j, e, ttl)
  }

  /** A resume uses up the token of its evaluation exactly when it announces a job, and touches no other. */
  lemma ResumeUsesToken(s: State, r: Request, ttl: int, e: string)
    ensures var s' := Resumed(s, r, ttl).0;
            && (e in s'.tokens <==> e in s.tokens)
            && (e in s.tokens ==>
                  s'.tokens[e] == if r.evaluation == e && |s'.outbox| > |s.outbox| then s.tokens[e].(used := true)
                                  else s.tokens[e])
            && (|s'.outbox| > |s.outbox| ==> r.evaluation in s.tokens)
  {
  }

  /** The stored token is that of the last registration, and it is used if a resume announced a job since. */
  ghost predicate TokenIs(steps: seq<Step>, n: nat, e: string, ttl: int)
    requires n <= |steps|
  {
    var tokens := Before(steps, n, ttl).tokens;
    && (e in tokens ==> exists i :: LastRegistered(steps, n, e, i))
    && forall i :: LastRegistered(steps, n, e, i) ==>
         && e in tokens
         && tokens[e] == Token(steps[i].token, steps[i].tenant, Bought(steps, i + 1, n, e, ttl), steps[i].now)
  }

  lemma BoughtNext(steps: seq<Step>, from: int, n: nat, e: string, ttl: int)
    requires 0 <= from <= n < |steps|
    ensures Bought(steps, from, n + 1, e, ttl) <==> Bought(steps, from, n, e, ttl) || Buys(steps, n, e, ttl)
  {
  }

  lemma RegisterKeepsTokenIs(steps: seq<Step>, n: nat, e: string, ttl: int)
    requires n < |steps| && TokenIs(steps, n, e, ttl) && steps[n].Register?
    ensures TokenIs(steps, n + 1, e, ttl)
  {
    BeforeNext(steps, n, ttl);
    if Registers(steps[n], e) {
      assert LastRegistered(steps, n + 1, e, n);
    } else {
      forall i ensures LastRegistered(steps, n + 1, e, i) <==> LastRegistered(steps, n, e, i) {
      }
      forall i | LastRegistered(steps, n, e, i)
        ensures Bought(steps, i + 1, n + 1, e, ttl) == Bought(steps, i + 1, n, e, ttl)
      {
        BoughtNext(steps, i + 1, n, e, ttl);
      }
    }
  }

  lemma ResumeKeepsTokenIs(steps: seq<Step>, n: nat, e: string, ttl: int)
    requires n < |steps| && TokenIs(steps, n, e, ttl) && steps[n].Resume?
    ensures TokenIs(steps, n + 1, e, ttl)
  {
    BeforeNext(steps, n, ttl);
    ResumeUsesToken(Before(steps, n, ttl), steps[n].request, ttl, e);
    forall i ensures LastRegistered(steps, n + 1, e, i) <==> LastRegistered(steps, n, e, i) {
    }
    forall i | LastRegistered(steps, n, e, i)
      ensures Bought(steps, i + 1, n + 1, e, ttl) <==> Bought(steps, i + 1, n, e, ttl) || Buys(steps, n, e, ttl)
    {
      BoughtNext(steps, i + 1, n, e, ttl);
    }
  }

  lemma {:induction false} HistoryHoldsToken(steps: seq<Step>, n: nat, e: string, ttl: int)
    requires n <= |steps|
    ensures TokenIs(steps, n, e, ttl)
  {
    if n > 0 {
      HistoryHoldsToken(steps, n - 1, e, ttl);
      if steps[n - 1].Register? {
        RegisterKeepsTokenIs(steps, n - 1, e, ttl);
      } else {
        ResumeKeepsTokenIs(steps, n - 1, e, ttl);
      }
    }
  }

  // ---- When a resume succeeds ----

  /** The request names the last token its evaluation was given, for its tenant, in time, and nothing bought yet. */
  ghost predicate HasGoodToken(steps: seq<Step>, r: Request, ttl: int) {
    exists i ::
      && LastRegistered(steps, |steps|, r.evaluation, i)
      && steps[i].token == r.payload.token && steps[i].tenant == r.tenant
      && r.now <= steps[i].now + ttl
      && !Bought(steps, i + 1, |steps|, r.evaluation, ttl)
  }

  /** A header and a reviewer, without which no request gets to the records. */
  predicate IsComplete(r: Request) {
    r.key.Some? && r.key.value != "" && exists i :: 0 <= i < |r.payload.reviewer| && !IsSpace(r.payload.reviewer[i])
  }

  ghost predicate Recorded(s: State, r: Request)
    requires r.key.Some?
  {
    (Scope(r.tenant, r.evaluation), r.key.value) in s.records
  }

  /**
   * After any run from the start, a request announces a job if and only if it is complete, its key is new, and the last
   * token given to its evaluation is the one it names, was given to its tenant no longer ago than the time to live, and
   * has announced no job since.
   */
  lemma ResumeSucceedsIff(steps: seq<Step>, r: Request, ttl: int)
    ensures var s := After(EMPTY, steps, ttl);
            var (s', result) := Resumed(s, r, ttl);
            && (|s'.outbox| > |s.outbox| <==> IsComplete(r) && !Recorded(s, r) && HasGoodToken(steps, r, ttl))
            && (IsComplete(r) && !Recorded(s, r) ==> (result.Ok? <==> HasGoodToken(steps, r, ttl)))
            && (!IsComplete(r) ==> result.Err?)
  {
    var s, e := After(EMPTY, steps, ttl), r.evaluation;
    assert steps[..|steps|] == steps;
    HistoryHoldsToken(steps, |steps|, e, ttl);
    StripIsEmptyIff(r.payload.reviewer);
    GoodTokenIsValid(steps, r, ttl);
  }

  lemma GoodTokenIsValid(steps: seq<Step>, r: Request, ttl: int)
    requires TokenIs(steps, |steps|, r.evaluation, ttl)
    ensures HasGoodToken(steps, r, ttl) <==>
              Validated(Before(steps, |steps|, ttl), r.evaluation, r.payload.token, r.tenant, r.now, ttl) == Ok(true)
  {
    var n, e := |steps|, r.evaluation;
    if e in Before(steps, n, ttl).tokens {
      var i :| LastRegistered(steps, n, e, i);
      forall j | LastRegistered(steps, n, e, j) ensures j == i {
      }
    }
  }

  /** The error of a request that is not answered, each if and only if. */
  lemma ResumeErrors(steps: seq<Step>, r: Request, ttl: int)
    ensures var s := After(EMPTY, steps, ttl);
            var result := Resumed(s, r, ttl).1;
            var hasKey := r.key.Some? && r.key.value != "";
            && (result == Err(IdempotencyMissing) <==> !hasKey)
            && (result == Err(ReviewerRequired) <==> hasKey && !IsComplete(r))
            && (result == Err(IdempotencyConflict) <==>
                  && IsComplete(r) && Recorded(s, r)
                  && s.records[(Scope(r.tenant, r.evaluation), r.key.value)].fingerprint != r.payload)
            && (result == Err(TenantScopeViolation) <==>
                  && IsComplete(r) && !Recorded(s, r)
                  && exists i :: LastRegistered(steps, |steps|, r.evaluation, i) && steps[i].tenant != r.tenant)
  {
    var e := r.evaluation;
    assert steps[..|steps|] == steps;
    HistoryHoldsToken(steps, |steps|, e, ttl);
    StripIsEmptyIff(r.payload.reviewer);
    if e in After(EMPTY, steps, ttl).tokens {
      var i :| LastRegistered(steps, |steps|, e, i);
      forall j | LastRegistered(steps, |steps|, e, j) ensures j == i {
      }
    }
  }

  /** What a success leaves: one new queued job with the request's own data, a report no longer waiting, a trace. */
  lemma SuccessLeaves(s: State, r: Request, ttl: int)
    requires |Resumed(s, r, ttl).0.outbox| > |s.outbox|
    ensures var (s', result) := Resumed(s, r, ttl);
            && result == Ok(Receipt(r.evaluation, r.newJob))
            && r.newJob in s'.jobs
            && (forall j :: j in s.jobs && j != r.newJob ==> j in s'.jobs && s'.jobs[j] == s.jobs[j])
            && var job := s'.jobs[r.newJob];
            && job.evaluation == r.evaluation && job.tenant == r.tenant && job.payload == r.payload
            && s'.outbox == s.outbox + [Event(job.tenant, r.newJob, job.evaluation)]
            && |s'.audit| == |s.audit| + 1
            && s'.audit[|s.audit|] == Audit(job.tenant, job.evaluation, job.payload.reviewer, job.payload.decision,
                                            job.payload.comment)
            && s'.reports.Keys == s.reports.Keys
            && forall e :: e in s.reports ==>
                 if e == r.evaluation && s.reports[e].tenant == r.tenant
                 then !s'.reports[e].needsReview && !s'.reports[e].interrupted
                      && s'.reports[e].tenant == r.tenant && s'.reports[e].thread == s.reports[e].thread
                      && job.thread == if s.reports[e].thread == "" then r.newThread else s.reports[e].thread
                 else s'.reports[e] == s.reports[e] && (e == r.evaluation ==> job.thread == r.newThread)
  {
  }
}
