/** Reachable states of the pipeline that show what the safety theorems cannot be strengthened to. */
module JobPipelineLimits {
  import opened Basics
  import opened QueueSpec
  import opened JobPipeline
  import opened JobPipelineSafety
  import opened JobPipelineRelay
  import opened JobPipelineCover
  import JobMachine

  ghost predicate Reachable(relays: nat, workers: nat, s: System) {
    exists steps :: s == After(Init(relays, workers), steps)
  }

  lemma {:induction false} AfterSnoc(s: System, steps: seq<Step>, step: Step)
    ensures After(s, steps + [step]) == Next(After(s, steps), step)
    decreases |steps|
  {
    if steps == [] {
      assert After(s, [step]) == After(Next(s, step), []);
    } else {
      assert (steps + [step])[0] == steps[0] && (steps + [step])[1..] == steps[1..] + [step];
      AfterSnoc(Next(s, steps[0]), steps[1..], step);
    }
  }

  lemma Reach(relays: nat, workers: nat, s: System, step: Step, s': System)
    requires Reachable(relays, workers, s) && s' == Next(s, step)
    ensures Reachable(relays, workers, s')
  {
    var steps :| s == After(Init(relays, workers), steps);
    AfterSnoc(Init(relays, workers), steps, step);
  }

  // ---- The states of the examples ----

  const QUEUED := Record("t", JobMachine.Queued, false)
  const RUNNING := Record("t", JobMachine.Running, false)
  const RETRYING := Record("t", JobMachine.Retrying, false)
  const PENDING := Record("t", JobMachine.DlqPending, false)
  const RECORDED := Record("t", JobMachine.DlqRecorded, false)
  const CANCELLED := Record("t", JobMachine.Failed, true)

  function Sent(id: string): Message {
    Message(id, "t", "jobs", Payload("j", "e", "c", 0), 0, Some(0))
  }

  function At(p: Point): Relay {
    Relaying("t", "c", "jobs", ["e"], p)
  }

  /** One job with its event, the relays and workers given, and these messages sent and in the pool. */
  function Scene(rec: Record, published: bool, relays: seq<Relay>, workers: seq<Worker>, pool: Pool,
                 sent: map<string, Message>, deliveries: map<Route, string>, dlq: multiset<string>): System {
    System(map["j" := rec], {}, {}, map["e" := Event("t", "j", published)], map["j" := "e"], deliveries, pool, dlq,
           relays, workers, sent, multiset{}, multiset{})
  }

  function Relays2(workers: seq<Worker>, a: Relay, b: Relay, pool: Pool, sent: map<string, Message>): System {
    Scene(QUEUED, false, [a, b], workers, pool, sent, map[], multiset{})
  }

  lemma CreatedIsReached(relays: nat, workers: nat)
    ensures Reachable(relays, workers,
                      Scene(QUEUED, false, seq(relays, _ => Resting), seq(workers, _ => Idle), map[], map[], map[],
                            multiset{}))
  {
    var s0 := Init(relays, workers);
    var s1 := s0.(jobs := map["j" := QUEUED], drafting := {"j"});
    var s2 := Scene(QUEUED, false, seq(relays, _ => Resting), seq(workers, _ => Idle), map[], map[], map[], multiset{});
    assert s0 == After(s0, []);
    assert s1 == PersistJob(s0, "j", "t");
    assert {"j"} - {"j"} == {};
    assert s2 == AppendEvent(s1, "j", "e");
    Reach(relays, workers, s0, PersistStep("j", "t"), s1);
    Reach(relays, workers, s1, AppendStep("j", "e"), s2);
  }

  /** A job whose creation stops before its event is queued for ever, with nothing to run it. */
  lemma AbandonedCreationOrphans(relays: nat, workers: nat)
    ensures exists s :: Reachable(relays, workers, s) && "j" in s.jobs && s.jobs["j"] == QUEUED && !Covered(s, "j")
  {
    var s0 := Init(relays, workers);
    var s1 := s0.(jobs := map["j" := QUEUED], drafting := {"j"});
    var s2 := s1.(drafting := {}, abandoned := {"j"});
    assert s0 == After(s0, []);
    assert s1 == PersistJob(s0, "j", "t");
    assert {"j"} - {"j"} == {};
    assert s2 == AbandonCreation(s1, "j");
    Reach(relays, workers, s0, PersistStep("j", "t"), s1);
    Reach(relays, workers, s1, AbandonStep("j"), s2);
  }

  // ---- Overlapping relays ----

  lemma Started(workers: seq<Worker>, a: Relay)
    ensures RelayStart(Relays2(workers, Resting, a, map[], map[]), 0, "t", "c", "jobs", ["e"])
              == Relays2(workers, At(Checking), a, map[], map[])
    ensures RelayStart(Relays2(workers, a, Resting, map[], map[]), 1, "t", "c", "jobs", ["e"])
              == Relays2(workers, a, At(Checking), map[], map[])
  {
  }

  lemma Checked(workers: seq<Worker>, a: Relay)
    ensures RelayCheck(Relays2(workers, At(Checking), a, map[], map[]), 0)
              == Relays2(workers, At(Enqueueing), a, map[], map[])
    ensures RelayCheck(Relays2(workers, a, At(Checking), map[], map[]), 1)
              == Relays2(workers, a, At(Enqueueing), map[], map[])
  {
  }

  const M1 := map["m1" := Sent("m1")]
  const M12 := map["m1" := Sent("m1"), "m2" := Sent("m2")]

  lemma EnqueuedOnce(workers: seq<Worker>)
    ensures RelayEnqueue(Relays2(workers, At(Enqueueing), At(Enqueueing), map[], map[]), 0, "m1", 0)
              == Relays2(workers, At(Delivering("m1")), At(Enqueueing), map["m1" := Pending(Sent("m1"))], M1)
  {
  }

  /** Two messages of the same job wait, both relays about to mark their delivery. */
  function Doubled(workers: seq<Worker>): System {
    Relays2(workers, At(Delivering("m1")), At(Delivering("m2")),
            map["m1" := Pending(Sent("m1")), "m2" := Pending(Sent("m2"))], M12)
  }

  lemma EnqueuedTwice(workers: seq<Worker>)
    ensures RelayEnqueue(Relays2(workers, At(Delivering("m1")), At(Enqueueing), map["m1" := Pending(Sent("m1"))], M1),
                         1, "m2", 0)
              == Doubled(workers)
  {
  }

  lemma BothCheckedReached(workers: nat)
    ensures Reachable(2, workers, Relays2(seq(workers, _ => Idle), At(Enqueueing), At(Enqueueing), map[], map[]))
  {
    var ws := seq(workers, _ => Idle);
    CreatedIsReached(2, workers);
    assert seq(2, _ => Resting) == [Resting, Resting];
    Started(ws, Resting);
    Started(ws, At(Checking));
    Checked(ws, At(Checking));
    Checked(ws, At(Enqueueing));
    Reach(2, workers, Relays2(ws, Resting, Resting, map[], map[]),
          RelayStartStep(0, "t", "c", "jobs", ["e"]), Relays2(ws, At(Checking), Resting, map[], map[]));
    Reach(2, workers, Relays2(ws, At(Checking), Resting, map[], map[]),
          RelayStartStep(1, "t", "c", "jobs", ["e"]), Relays2(ws, At(Checking), At(Checking), map[], map[]));
    Reach(2, workers, Relays2(ws, At(Checking), At(Checking), map[], map[]),
          RelayCheckStep(0), Relays2(ws, At(Enqueueing), At(Checking), map[], map[]));
    Reach(2, workers, Relays2(ws, At(Enqueueing), At(Checking), map[], map[]),
          RelayCheckStep(1), Relays2(ws, At(Enqueueing), At(Enqueueing), map[], map[]));
  }

  lemma DoubledReached(workers: nat)
    ensures Reachable(2, workers, Doubled(seq(workers, _ => Idle)))
  {
    var ws := seq(workers, _ => Idle);
    BothCheckedReached(workers);
    EnqueuedOnce(ws);
    EnqueuedTwice(ws);
    var once := Relays2(ws, At(Delivering("m1")), At(Enqueueing), map["m1" := Pending(Sent("m1"))], M1);
    Reach(2, workers, Relays2(ws, At(Enqueueing), At(Enqueueing), map[], map[]), RelayEnqueueStep(0, "m1", 0), once);
    Reach(2, workers, once, RelayEnqueueStep(1, "m2", 0), Doubled(ws));
  }

  /** Two relay requests for one consumer that overlap enqueue an event twice, with no crash at all. */
  lemma OverlappingRelaysDuplicate(workers: nat)
    ensures exists s :: Reachable(2, workers, s) && |Enqueued(s, ("e", "c"))| == 2 && s.crashed == multiset{}
  {
    DoubledReached(workers);
    var s := Doubled(seq(workers, _ => Idle));
    assert Enqueued(s, ("e", "c")) == {"m1", "m2"};
  }

  // ---- Two workers on two messages of one job ----

  function TwoAt(rec: Record, a: Worker, b: Worker, dlq: multiset<string>): System {
    Scene(rec, false, [At(Delivering("m1")), At(Delivering("m2"))], [a, b],
          map["m1" := if a.Busy? then InFlight(Sent("m1")) else Pending(Sent("m1")),
              "m2" := if b.Busy? then InFlight(Sent("m2")) else Pending(Sent("m2"))], M12, map[], dlq)
  }

  function W1(p: Phase): Worker { Busy(Sent("m1"), p) }

  function W2(p: Phase): Worker { Busy(Sent("m2"), p) }

  lemma Taken1()
    ensures JobPipeline.Dequeue(TwoAt(QUEUED, Idle, Idle, multiset{}), 0, "m1")
              == TwoAt(QUEUED, W1(Fetched), Idle, multiset{})
    ensures JobPipeline.Dequeue(TwoAt(QUEUED, W1(Fetched), Idle, multiset{}), 1, "m2")
              == TwoAt(QUEUED, W1(Fetched), W2(Fetched), multiset{})
  {
  }

  lemma TwoWorked(rec: Record, p: Phase, q: Phase, dlq: multiset<string>, rec': Record, phase: Phase, item: bool)
    ensures var s, dlq' := TwoAt(rec, W1(p), W2(q), dlq), if item then dlq + multiset{"j"} else dlq;
            && Worked(s, 0, rec', phase, item) == TwoAt(rec', W1(phase), W2(q), dlq')
            && Worked(s, 1, rec', phase, item) == TwoAt(rec', W1(p), W2(phase), dlq')
  {
  }

  /** A small step of either worker, as `Effect` gives it. */
  lemma FirstSteps(rec: Record, p: Phase, q: Phase, dlq: multiset<string>, act: Act, rec': Record, phase: Phase,
                   item: bool)
    requires Reachable(2, 2, TwoAt(rec, W1(p), W2(q), dlq)) && rec.tenant == "t"
    requires Effect(rec, p, act) == (rec', phase, item)
    ensures Reachable(2, 2, TwoAt(rec', W1(phase), W2(q), if item then dlq + multiset{"j"} else dlq))
  {
    var s := TwoAt(rec, W1(p), W2(q), dlq);
    WorkDoes(s, 0, act, rec', phase, item);
    TwoWorked(rec, p, q, dlq, rec', phase, item);
    Reach(2, 2, s, WorkStep(0, act), Work(s, 0, act));
  }

  lemma SecondSteps(rec: Record, p: Phase, q: Phase, dlq: multiset<string>, act: Act, rec': Record, phase: Phase,
                    item: bool)
    requires Reachable(2, 2, TwoAt(rec, W1(p), W2(q), dlq)) && rec.tenant == "t"
    requires Effect(rec, q, act) == (rec', phase, item)
    ensures Reachable(2, 2, TwoAt(rec', W1(p), W2(phase), if item then dlq + multiset{"j"} else dlq))
  {
    var s := TwoAt(rec, W1(p), W2(q), dlq);
    WorkDoes(s, 1, act, rec', phase, item);
    TwoWorked(rec, p, q, dlq, rec', phase, item);
    Reach(2, 2, s, WorkStep(1, act), Work(s, 1, act));
  }

  lemma BothFetchedReached()
    ensures Reachable(2, 2, TwoAt(QUEUED, W1(Fetched), W2(Fetched), multiset{}))
  {
    DoubledReached(2);
    assert seq(2, _ => Idle) == [Idle, Idle];
    Taken1();
    Reach(2, 2, TwoAt(QUEUED, Idle, Idle, multiset{}), DequeueStep(0, "m1"),
          TwoAt(QUEUED, W1(Fetched), Idle, multiset{}));
    Reach(2, 2, TwoAt(QUEUED, W1(Fetched), Idle, multiset{}),
          DequeueStep(1, "m2"), TwoAt(QUEUED, W1(Fetched), W2(Fetched), multiset{}));
  }

  lemma BothWorkingReached()
    ensures Reachable(2, 2, TwoAt(RUNNING, W1(Working), W2(Working), multiset{}))
  {
    BothFetchedReached();
    FirstSteps(QUEUED, Fetched, Fetched, multiset{}, Start, RUNNING, Working, false);
    SecondSteps(RUNNING, Working, Fetched, multiset{}, Start, RUNNING, Working, false);
  }

  lemma BothMarkedReached()
    ensures Reachable(2, 2, TwoAt(PENDING, W1(DlqMarked), W2(DlqMarked), multiset{}))
  {
    BothWorkingReached();
    FirstSteps(RUNNING, Working, Working, multiset{}, Fail, PENDING, DlqMarked, false);
    SecondSteps(PENDING, DlqMarked, Working, multiset{}, Fail, PENDING, DlqMarked, false);
  }

  lemma BothNotedReached()
    ensures Reachable(2, 2, TwoAt(RECORDED, W1(DlqNoted), W2(DlqNoted), multiset{}))
  {
    BothMarkedReached();
    FirstSteps(PENDING, DlqMarked, DlqMarked, multiset{}, Fail, RECORDED, DlqNoted, false);
    SecondSteps(RECORDED, DlqNoted, DlqMarked, multiset{}, Fail, RECORDED, DlqNoted, false);
  }

  /** Two workers on duplicate messages can record the same failing job twice in the dead-letter queue. */
  lemma DuplicatesDoubleTheDlqItem()
    ensures exists s :: Reachable(2, 2, s) && s.dlq["j"] == 2 == |s.sent| && s.crashed == multiset{}
  {
    BothNotedReached();
    FirstSteps(RECORDED, DlqNoted, DlqNoted, multiset{}, Fail, RECORDED, ItemSeeded, true);
    var once := multiset{} + multiset{"j"};
    SecondSteps(RECORDED, ItemSeeded, DlqNoted, once, Fail, RECORDED, ItemSeeded, true);
    assert TwoAt(RECORDED, W1(ItemSeeded), W2(ItemSeeded), once + multiset{"j"}).dlq["j"] == 2;
  }

  // ---- One relay, one worker ----

  function OneRelay(relay: Relay, published: bool, deliveries: map<Route, string>, pool: Pool,
                    sent: map<string, Message>): System {
    Scene(QUEUED, published, [relay], [Idle], pool, sent, deliveries, multiset{})
  }

  function OneAt(rec: Record, worker: Worker, pool: Pool): System {
    Scene(rec, true, [Resting], [worker], pool, M1, map[("e", "c") := "m1"], multiset{})
  }

  const WAITING: Pool := map["m1" := Pending(Sent("m1"))]
  const FLYING: Pool := map["m1" := InFlight(Sent("m1"))]

  lemma RelayedOnce()
    ensures RelayStart(OneRelay(Resting, false, map[], map[], map[]), 0, "t", "c", "jobs", ["e"])
              == OneRelay(At(Checking), false, map[], map[], map[])
    ensures RelayCheck(OneRelay(At(Checking), false, map[], map[], map[]), 0)
              == OneRelay(At(Enqueueing), false, map[], map[], map[])
    ensures RelayEnqueue(OneRelay(At(Enqueueing), false, map[], map[], map[]), 0, "m1", 0)
              == OneRelay(At(Delivering("m1")), false, map[], WAITING, M1)
  {
  }

  lemma MarkedOnce()
    ensures RelayDeliver(OneRelay(At(Delivering("m1")), false, map[], WAITING, M1), 0)
              == OneRelay(At(Publishing), false, map[("e", "c") := "m1"], WAITING, M1)
    ensures RelayPublish(OneRelay(At(Publishing), false, map[("e", "c") := "m1"], WAITING, M1), 0)
              == OneRelay(Relaying("t", "c", "jobs", [], Checking), true, map[("e", "c") := "m1"], WAITING, M1)
    ensures RelayStop(OneRelay(Relaying("t", "c", "jobs", [], Checking), true, map[("e", "c") := "m1"], WAITING, M1), 0)
              == OneAt(QUEUED, Idle, WAITING)
  {
    assert ["e"][1..] == [];
  }

  lemma CheckedReached()
    ensures Reachable(1, 1, OneRelay(At(Checking), false, map[], map[], map[]))
  {
    CreatedIsReached(1, 1);
    assert seq(1, _ => Resting) == [Resting] && seq(1, _ => Idle) == [Idle];
    RelayedOnce();
    Reach(1, 1, OneRelay(Resting, false, map[], map[], map[]),
          RelayStartStep(0, "t", "c", "jobs", ["e"]), OneRelay(At(Checking), false, map[], map[], map[]));
  }

  lemma EnqueuedReached()
    ensures Reachable(1, 1, OneRelay(At(Delivering("m1")), false, map[], WAITING, M1))
  {
    CheckedReached();
    RelayedOnce();
    Reach(1, 1, OneRelay(At(Checking), false, map[], map[], map[]),
          RelayCheckStep(0), OneRelay(At(Enqueueing), false, map[], map[], map[]));
    Reach(1, 1, OneRelay(At(Enqueueing), false, map[], map[], map[]),
          RelayEnqueueStep(0, "m1", 0), OneRelay(At(Delivering("m1")), false, map[], WAITING, M1));
  }

  lemma MarkedReached()
    ensures Reachable(1, 1, OneRelay(At(Publishing), false, map[("e", "c") := "m1"], WAITING, M1))
  {
    EnqueuedReached();
    MarkedOnce();
    Reach(1, 1, OneRelay(At(Delivering("m1")), false, map[], WAITING, M1), RelayDeliverStep(0),
          OneRelay(At(Publishing), false, map[("e", "c") := "m1"], WAITING, M1));
  }

  lemma PublishedReached()
    ensures Reachable(1, 1, OneRelay(Relaying("t", "c", "jobs", [], Checking), true, map[("e", "c") := "m1"], WAITING,
                                     M1))
  {
    MarkedReached();
    MarkedOnce();
    Reach(1, 1, OneRelay(At(Publishing), false, map[("e", "c") := "m1"], WAITING, M1), RelayPublishStep(0),
          OneRelay(Relaying("t", "c", "jobs", [], Checking), true, map[("e", "c") := "m1"], WAITING, M1));
  }

  lemma RelayedReached()
    ensures Reachable(1, 1, OneAt(QUEUED, Idle, WAITING))
  {
    PublishedReached();
    MarkedOnce();
    Reach(1, 1, OneRelay(Relaying("t", "c", "jobs", [], Checking), true, map[("e", "c") := "m1"], WAITING, M1),
          RelayStopStep(0),
          OneAt(QUEUED, Idle, WAITING));
  }

  lemma OneWorked(rec: Record, p: Phase, rec': Record, phase: Phase)
    ensures Worked(OneAt(rec, W1(p), FLYING), 0, rec', phase, false) == OneAt(rec', W1(phase), FLYING)
  {
  }

  lemma OneWork(rec: Record, p: Phase, act: Act, rec': Record, phase: Phase)
    requires Reachable(1, 1, OneAt(rec, W1(p), FLYING)) && rec.tenant == "t"
    requires Effect(rec, p, act) == (rec', phase, false)
    ensures Reachable(1, 1, OneAt(rec', W1(phase), FLYING))
  {
    WorkDoes(OneAt(rec, W1(p), FLYING), 0, act, rec', phase, false);
    OneWorked(rec, p, rec', phase);
    Reach(1, 1, OneAt(rec, W1(p), FLYING), WorkStep(0, act), OneAt(rec', W1(phase), FLYING));
  }

  lemma FetchedReached()
    ensures Reachable(1, 1, OneAt(QUEUED, W1(Fetched), FLYING))
  {
    RelayedReached();
    assert JobPipeline.Dequeue(OneAt(QUEUED, Idle, WAITING), 0, "m1") == OneAt(QUEUED, W1(Fetched), FLYING);
    Reach(1, 1, OneAt(QUEUED, Idle, WAITING), DequeueStep(0, "m1"), OneAt(QUEUED, W1(Fetched), FLYING));
  }

  lemma RaisedReached()
    ensures Reachable(1, 1, OneAt(RUNNING, W1(Finished(false)), FLYING))
  {
    FetchedReached();
    OneWork(QUEUED, Fetched, Start, RUNNING, Working);
    OneWork(RUNNING, Working, Raise, RUNNING, Finished(false));
  }

  lemma SettledEmpty()
    ensures Settle(OneAt(RUNNING, W1(Finished(false)), FLYING), 0, 0, 0) == OneAt(RUNNING, Idle, map[])
  {
  }

  /** A run that raises while the job is running leaves it `running`, with nothing that would ever run it again. */
  lemma RaisedRunStrandsJob()
    ensures exists s ::
              Reachable(1, 1, s) && "j" in s.jobs && s.jobs["j"] == RUNNING && !Covered(s, "j") && s.dlq == multiset{}
  {
    RaisedReached();
    SettledEmpty();
    Reach(1, 1, OneAt(RUNNING, W1(Finished(false)), FLYING), SettleStep(0, 0, 0), OneAt(RUNNING, Idle, map[]));
    var s := OneAt(RUNNING, Idle, map[]);
    assert s.jobs["j"] == RUNNING && !Covered(s, "j");
  }

  lemma RetryWritingReached()
    ensures Reachable(1, 1, OneAt(RETRYING, W1(Writing(RETRYING, true)), FLYING))
  {
    FetchedReached();
    OneWork(QUEUED, Fetched, Start, RUNNING, Working);
    OneWork(RUNNING, Working, Retry, RETRYING, Writing(RETRYING, true));
  }

  lemma NackLost()
    ensures NackCut(OneAt(RETRYING, W1(Finished(true)), FLYING), 0) == OneAt(RETRYING, Idle, map[])
  {
    assert FLYING - {"m1"} == map[];
  }

  /** A crash within the nack after a retry leaves the job retrying, its event published, with nothing to run it. */
  lemma LostNackOrphansJob()
    ensures exists s :: Reachable(1, 1, s) && "j" in s.jobs && s.jobs["j"] == RETRYING && !Covered(s, "j")
                        && "j" !in s.drafting + s.abandoned
  {
    RetryWritingReached();
    OneWork(RETRYING, Writing(RETRYING, true), WriteBack, RETRYING, Finished(true));
    NackLost();
    var s := OneAt(RETRYING, Idle, map[]);
    Reach(1, 1, OneAt(RETRYING, W1(Finished(true)), FLYING), NackCutStep(0), s);
    assert s.jobs["j"] == RETRYING && !Covered(s, "j");
  }

  lemma CancelledReached()
    ensures Reachable(1, 1, OneAt(CANCELLED, W1(Writing(RETRYING, true)), FLYING))
  {
    RetryWritingReached();
    var s := OneAt(CANCELLED, W1(Writing(RETRYING, true)), FLYING);
    assert CancelJob(OneAt(RETRYING, W1(Writing(RETRYING, true)), FLYING), "j") == s;
    Reach(1, 1, OneAt(RETRYING, W1(Writing(RETRYING, true)), FLYING), CancelStep("j"), s);
  }

  /** A cancellation that falls between a status change and its write-back is overwritten. */
  lemma CancellationCanBeLost()
    ensures var s := OneAt(CANCELLED, W1(Writing(RETRYING, true)), FLYING);
            && Reachable(1, 1, s) && s.jobs["j"] == CANCELLED
            && Reachable(1, 1, OneAt(RETRYING, W1(Finished(true)), FLYING))
            && Work(s, 0, WriteBack) == OneAt(RETRYING, W1(Finished(true)), FLYING)
  {
    CancelledReached();
    WrittenBack();
    OneWork(CANCELLED, Writing(RETRYING, true), WriteBack, RETRYING, Finished(true));
  }

  lemma WrittenBack()
    ensures Work(OneAt(CANCELLED, W1(Writing(RETRYING, true)), FLYING), 0, WriteBack)
              == OneAt(RETRYING, W1(Finished(true)), FLYING)
  {
  }

  // ---- When a final record is left ----

  /** A worker is about to write back a private copy of this job that differs from the stored record. */
  predicate StaleCopy(s: System, w: nat, act: Act, jobId: string) {
    && act.WriteBack? && w < |s.workers| && s.workers[w].Busy? && s.workers[w].msg.payload.jobId == jobId
    && s.workers[w].phase.Writing? && jobId in s.jobs && s.workers[w].phase.copy != s.jobs[jobId]
  }

  /** On a terminal record every small step but a write-back leaves the record alone. */
  lemma EffectOnFinal(rec: Record, phase: Phase, act: Act)
    requires JobMachine.Terminal(rec.status)
    ensures Effect(rec, phase, act).0 == if phase.Writing? && act.WriteBack? then phase.copy else rec
  {
  }

  lemma WorkOnFinal(s: System, w: nat, act: Act, jobId: string)
    requires Inv(s) && jobId in s.jobs && JobMachine.Terminal(s.jobs[jobId].status)
    ensures jobId in Work(s, w, act).jobs
    ensures Work(s, w, act).jobs[jobId] != s.jobs[jobId] <==> StaleCopy(s, w, act, jobId)
  {
    if w < |s.workers| && s.workers[w].Busy? {
      HeldJob(s, w);
      if s.workers[w].msg.payload.jobId == jobId {
        EffectOnFinal(s.jobs[jobId], s.workers[w].phase, act);
        WorkIsWorked(s, w, act);
      }
    }
  }

  /** Exactly the write-back of a stale copy takes a finished or cancelled job out of its final record. */
  lemma FinalRecordLeftOnlyByStaleCopy(s: System, step: Step, jobId: string)
    requires Inv(s) && jobId in s.jobs && JobMachine.Terminal(s.jobs[jobId].status)
    ensures jobId in Next(s, step).jobs
    ensures Next(s, step).jobs[jobId] != s.jobs[jobId] <==> step.WorkStep? && StaleCopy(s, step.w, step.act, jobId)
  {
    if step.WorkStep? {
      WorkOnFinal(s, step.w, step.act, jobId);
    } else if IsRelayStep(step) {
      RelayKeepsJobs(s, step);
    } else {
      OthersKeepFinal(s, step, jobId);
    }
  }

  lemma OthersKeepFinal(s: System, step: Step, jobId: string)
    requires !step.WorkStep? && !IsRelayStep(step) && jobId in s.jobs && JobMachine.Terminal(s.jobs[jobId].status)
    ensures jobId in Next(s, step).jobs && Next(s, step).jobs[jobId] == s.jobs[jobId]
  {
  }

  lemma RelayKeepsJobs(s: System, step: Step)
    requires IsRelayStep(step)
    ensures Next(s, step).jobs == s.jobs
  {
    if step.RelayEnqueueStep? {
      assert Next(s, step) == RelayEnqueue(s, step.r, step.id, step.now);
    } else {
      RelayLeavesWork(s, step);
    }
  }
}
