/**
 * The job pipeline as a step relation: job creation, the outbox relay, the queue, workers that run jobs in small
 * steps, and cancellation, any number of relays and workers interleaved and each allowed to crash.
 */
module JobPipeline {
  import opened Basics
  import opened QueueSpec
  import JobMachine

  type Status = JobMachine.Status

  /** A stored job record; `cancelled` stands for the error code JOB_CANCELLED. */
  datatype Record = Record(tenant: string, status: Status, cancelled: bool)

  datatype Event = Event(tenant: string, jobId: string, published: bool)

  /** Where a relay stands with the first event of `todo`. */
  datatype Point = Checking | Enqueueing | Delivering(messageId: string) | Publishing

  datatype Relay = Resting | Relaying(tenant: string, consumer: string, queue: string, todo: seq<string>, point: Point)

  /**
   * Where a worker stands with the message it holds. `Writing` is the write-back of a private copy of the record
   * after the status was changed; `Finished(true)` answers `retrying`.
   */
  datatype Phase = Fetched | Working | DlqMarked | DlqNoted | ItemSeeded | Writing(copy: Record, retry: bool)
    | Finished(retry: bool)

  datatype Worker = Idle | Busy(msg: Message, phase: Phase)

  /** An outbox event and the consumer it is delivered to. */
  type Route = (string, string)

  /**
   * `drafting` are jobs stored whose event is not appended yet, `abandoned` those whose creation was cut there.
   * `sent`, `crashed` and `redundant` record the past: every message ever enqueued, the relay crashes between an
   * enqueue and its delivery mark, and the delivery marks that found one already there.
   */
  datatype System = System(
    jobs: map<string, Record>, drafting: set<string>, abandoned: set<string>,
    events: map<string, Event>, eventOf: map<string, string>,
    deliveries: map<Route, string>, pool: Pool, dlq: multiset<string>,
    relays: seq<Relay>, workers: seq<Worker>,
    sent: map<string, Message>, crashed: multiset<Route>, redundant: multiset<Route>)

  function Init(relays: nat, workers: nat): System {
    System(map[], {}, {}, map[], map[], map[], map[], multiset{},
           seq(relays, _ => Resting), seq(workers, _ => Idle), map[], multiset{}, multiset{})
  }

  // ---- Job creation and cancellation ----

  function PersistJob(s: System, jobId: string, tenant: string): System {
    if jobId in s.jobs || jobId == "" then s
    else s.(jobs := s.jobs[jobId := Record(tenant, JobMachine.Queued, false)], drafting := s.drafting + {jobId})
  }

  function AppendEvent(s: System, jobId: string, eventId: string): System {
    if jobId !in s.drafting || jobId !in s.jobs || eventId in s.events then s
    else s.(events := s.events[eventId := Event(s.jobs[jobId].tenant, jobId, false)],
            eventOf := s.eventOf[jobId := eventId], drafting := s.drafting - {jobId})
  }

  function AbandonCreation(s: System, jobId: string): System {
    if jobId !in s.drafting then s
    else s.(drafting := s.drafting - {jobId}, abandoned := s.abandoned + {jobId})
  }

  function CancelJob(s: System, jobId: string): System {
    if jobId !in s.jobs || JobMachine.Terminal(s.jobs[jobId].status) then s
    else s.(jobs := s.jobs[jobId := s.jobs[jobId].(status := JobMachine.Failed, cancelled := true)])
  }

  // ---- The relay ----

  /** The request takes a list of events of its tenant that are pending at that moment. */
  function RelayStart(s: System, r: nat, tenant: string, consumer: string, queue: string, todo: seq<string>): System {
    if r >= |s.relays| || !s.relays[r].Resting?
       || exists i :: 0 <= i < |todo| &&
               !(todo[i] in s.events && s.events[todo[i]].tenant == tenant && !s.events[todo[i]].published)
    then s
    else s.(relays := s.relays[r := Relaying(tenant, consumer, queue, todo, Checking)])
  }

  predicate AtEvent(s: System, r: nat) {
    r < |s.relays| && s.relays[r].Relaying? && s.relays[r].todo != []
  }

  function RouteAt(s: System, r: nat): Route
    requires AtEvent(s, r)
  {
    (s.relays[r].todo[0], s.relays[r].consumer)
  }

  function SetPoint(s: System, r: nat, p: Point): System
    requires AtEvent(s, r)
  {
    s.(relays := s.relays[r := s.relays[r].(point := p)])
  }

  function RelayCheck(s: System, r: nat): System {
    if !AtEvent(s, r) || !s.relays[r].point.Checking? then s
    else SetPoint(s, r, if RouteAt(s, r) in s.deliveries then Publishing else Enqueueing)
  }

  function RelayMessage(s: System, r: nat, id: string, now: int): Message
    requires AtEvent(s, r) && RouteAt(s, r).0 in s.events
  {
    var (e, c) := RouteAt(s, r);
    Message(id, s.relays[r].tenant, s.relays[r].queue, Payload(s.events[e].jobId, e, c, 0), 0, Some(now))
  }

  function RelayEnqueue(s: System, r: nat, id: string, now: int): System {
    if !AtEvent(s, r) || !s.relays[r].point.Enqueueing? || RouteAt(s, r).0 !in s.events || id in s.sent then s
    else
      var m := RelayMessage(s, r, id, now);
      SetPoint(s, r, Delivering(id)).(pool := s.pool[id := Pending(m)], sent := s.sent[id := m])
  }

  function RelayDeliver(s: System, r: nat): System {
    if !AtEvent(s, r) || !s.relays[r].point.Delivering? then s
    else
      var route := RouteAt(s, r);
      var s' := SetPoint(s, r, Publishing);
      if route in s.deliveries then s'.(redundant := s.redundant + multiset{route})
      else s'.(deliveries := s.deliveries[route := s.relays[r].point.messageId])
  }

  function RelayPublish(s: System, r: nat): System {
    if !AtEvent(s, r) || !s.relays[r].point.Publishing? || RouteAt(s, r).0 !in s.events then s
    else
      var e := RouteAt(s, r).0;
      var next := s.relays[r].(todo := s.relays[r].todo[1..], point := Checking);
      s.(events := s.events[e := s.events[e].(published := true)], relays := s.relays[r := next])
  }

  /** The request ends after its last event; a crash ends it anywhere. */
  function RelayStop(s: System, r: nat): System {
    if r >= |s.relays| then s
    else
      var cut := AtEvent(s, r) && s.relays[r].point.Delivering?;
      s.(relays := s.relays[r := Resting], crashed := if cut then s.crashed + multiset{RouteAt(s, r)} else s.crashed)
  }

  // ---- The worker ----

  /** A worker takes some pending message; which one the backend offers is left open. */
  function Dequeue(s: System, w: nat, id: string): System {
    if w >= |s.workers| || !s.workers[w].Idle? || id !in s.pool || !s.pool[id].Pending? then s
    else
      var m := s.pool[id].msg;
      s.(pool := s.pool[id := InFlight(m)], workers := s.workers[w := Busy(m, Fetched)])
  }

  datatype Act = Start | Retry | Fail | Succeed(writesBack: bool) | AskDecision | Raise | WriteBack

  /** `transition_job_status` on the stored record. */
  function Transition(rec: Record, status: Status): Option<Record> {
    if rec.status == status || status in JobMachine.AllowedTransitions(rec.status) then Some(rec.(status := status))
    else None
  }

  /** One small step of a run: the stored record, the phase after it, and whether a dead-letter item was added. */
  function Effect(rec: Record, phase: Phase, act: Act): (Record, Phase, bool) {
    match (phase, act)
    case (Fetched, Start) =>
      if rec.status in {JobMachine.Queued, JobMachine.Retrying, JobMachine.NeedsManualDecision}
      then (rec.(status := JobMachine.Running), Working, false)
      else if rec.status == JobMachine.Running then (rec, Working, false)
      else (rec, Finished(false), false)
    case (Working, Retry) => Moved(rec, JobMachine.Retrying, new' => Writing(new', true))
    case (Working, Fail) => Moved(rec, JobMachine.DlqPending, _ => DlqMarked)
    case (DlqMarked, Fail) => Moved(rec, JobMachine.DlqRecorded, _ => DlqNoted)
    case (DlqNoted, Fail) => (rec, ItemSeeded, true)
    case (ItemSeeded, Fail) => Moved(rec, JobMachine.Failed, new' => Writing(new', false))
    case (Working, Succeed(back)) =>
      Moved(rec, JobMachine.Succeeded, new' => if back then Writing(new', false) else Finished(false))
    case (Working, AskDecision) => Moved(rec, JobMachine.NeedsManualDecision, _ => Finished(false))
    case (Working, Raise) => (rec, Finished(false), false)
    case (Writing(copy, retry), WriteBack) => (copy, Finished(retry), false)
    case _ => (rec, phase, false)
  }

  /** A refused transition raises out of the run. */
  function Moved(rec: Record, status: Status, next: Record -> Phase): (Record, Phase, bool) {
    match Transition(rec, status)
    case Some(new') => (new', next(new'), false)
    case None => (rec, Finished(false), false)
  }

  function Work(s: System, w: nat, act: Act): System {
    if w >= |s.workers| || !s.workers[w].Busy? then s
    else
      var m := s.workers[w].msg;
      var j := m.payload.jobId;
      if j !in s.jobs || s.jobs[j].tenant != m.tenant then s.(workers := s.workers[w := Busy(m, Finished(false))])
      else
        var (rec, phase, seeded) := Effect(s.jobs[j], s.workers[w].phase, act);
        s.(jobs := s.jobs[j := rec], workers := s.workers[w := Busy(m, phase)],
           dlq := if seeded then s.dlq + multiset{j} else s.dlq)
  }

  /** Nack with a delay after a retry, ack after anything else. */
  function Settle(s: System, w: nat, delayMs: int, now: int): System {
    if w >= |s.workers| || !s.workers[w].Busy? || !s.workers[w].phase.Finished? then s
    else
      var m := s.workers[w].msg;
      var s' := s.(workers := s.workers[w := Idle]);
      if s.workers[w].phase.retry then s'.(pool := s.pool[m.id := Pending(Bumped(m, true, delayMs, now))])
      else s'.(pool := s.pool - {m.id})
  }

  /** The worker dies; what it held stays in flight. */
  function WorkerCrash(s: System, w: nat): System {
    if w >= |s.workers| then s else s.(workers := s.workers[w := Idle])
  }

  // ---- Messages lost by a crash within a queue operation ----

  /** A crash after the message left its list and before it is noted as in flight. */
  function DequeueCut(s: System, w: nat, id: string): System {
    if w >= |s.workers| || !s.workers[w].Idle? || id !in s.pool || !s.pool[id].Pending? then s
    else s.(pool := s.pool - {id})
  }

  /** A crash after a nack took the message out of flight and before it is back on its list. */
  function NackCut(s: System, w: nat): System {
    if w >= |s.workers| || !s.workers[w].Busy? || s.workers[w].phase != Finished(true) then s
    else s.(workers := s.workers[w := Idle], pool := s.pool - {s.workers[w].msg.id})
  }

  // ---- Runs ----

  datatype Step =
    | PersistStep(jobId: string, tenant: string)
    | AppendStep(jobId: string, eventId: string)
    | AbandonStep(jobId: string)
    | CancelStep(jobId: string)
    | RelayStartStep(r: nat, tenant: string, consumer: string, queue: string, todo: seq<string>)
    | RelayCheckStep(r: nat)
    | RelayEnqueueStep(r: nat, id: string, now: int)
    | RelayDeliverStep(r: nat)
    | RelayPublishStep(r: nat)
    | RelayStopStep(r: nat)
    | DequeueStep(w: nat, id: string)
    | WorkStep(w: nat, act: Act)
    | SettleStep(w: nat, delayMs: int, now: int)
    | WorkerCrashStep(w: nat)
    | DequeueCutStep(w: nat, id: string)
    | NackCutStep(w: nat)

  function Next(s: System, step: Step): System {
    match step
    case PersistStep(j, t) => PersistJob(s, j, t)
    case AppendStep(j, e) => AppendEvent(s, j, e)
    case AbandonStep(j) => AbandonCreation(s, j)
    case CancelStep(j) => CancelJob(s, j)
    case RelayStartStep(r, t, c, q, todo) => RelayStart(s, r, t, c, q, todo)
    case RelayCheckStep(r) => RelayCheck(s, r)
    case RelayEnqueueStep(r, id, now) => RelayEnqueue(s, r, id, now)
    case RelayDeliverStep(r) => RelayDeliver(s, r)
    case RelayPublishStep(r) => RelayPublish(s, r)
    case RelayStopStep(r) => RelayStop(s, r)
    case DequeueStep(w, id) => Dequeue(s, w, id)
    case WorkStep(w, act) => Work(s, w, act)
    case SettleStep(w, ms, now) => Settle(s, w, ms, now)
    case WorkerCrashStep(w) => WorkerCrash(s, w)
    case DequeueCutStep(w, id) => DequeueCut(s, w, id)
    case NackCutStep(w) => NackCut(s, w)
  }

  function After(s: System, steps: seq<Step>): System
    decreases |steps|
  {
    if steps == [] then s else After(Next(s, steps[0]), steps[1..])
  }
}
