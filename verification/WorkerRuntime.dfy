/** The resident worker: bounded rounds over tenants with a burst limit, acking or nacking every message. */
module WorkerRuntime {
  import opened Basics
  import opened QueueSpec
  import opened InMemoryQueue
  import opened WorkerHistory

  // ---- One message ----

  /** How the worker counts a message. */
  datatype Verdict = NoJob | Fine | Again | Bad

  /** The result without its delay. */
  function Plain(r: RunResult): RunResult {
    if r.Retrying? then Retrying(0) else r
  }

  function VerdictOf(r: RunResult): (v: Verdict)
    ensures v == Fine <==> r in {Succeeded, NeedsManualDecision}
    ensures v == Again <==> r.Retrying?
    ensures v == Bad <==> r in {Raised, OtherStatus}
  {
    if r.Retrying? then Again else if r.Succeeded? || r.NeedsManualDecision? then Fine else Bad
  }

  lemma BumpedIsLater(m: Message, delayMs: int, now: int)
    ensures Bumped(m, true, delayMs, now) == Later(m, now, if delayMs < 0 then 0 else delayMs)
  {
  }

  /** The state after the i-th message of a deque was taken and settled: gone, or put `back` at the front. */
  function Settled(s: State, key: string, i: nat, back: seq<Message>): State
    requires i < |Deque(s, key)|
  {
    var d := Deque(s, key);
    s.(queues := s.queues[key := back + d[i + 1..] + d[..i]])
  }

  /** Every queue name in play is free of colons, so a deque holds one tenant's messages for one queue. */
  ghost predicate PlainNames(pool: Pool) {
    forall id :: id in pool ==> ColonFree(pool[id].msg.queue)
  }

  /** The message a dequeue takes belongs to the tenant and queue it was taken from, and was not in flight. */
  lemma TakenIsOwn(s: State, pool: Pool, tenant: string, queue: string, i: nat)
    requires Refines(s, pool) && ColonFree(queue) && PlainNames(pool)
    requires i < |Deque(s, QueueKey(tenant, queue))|
    ensures var m := Deque(s, QueueKey(tenant, queue))[i];
            m.tenant == tenant && m.queue == queue && m.id !in s.inflight && Holds(pool, m)
  {
    DequeHoldsOwn(s, pool, tenant, queue);
    var m := Deque(s, QueueKey(tenant, queue))[i];
    assert m in Deque(s, QueueKey(tenant, queue));
  }

  /** Dequeue then ack: the message is gone and nothing else moved. */
  lemma AckAfterTake(s: State, tenant: string, key: string, i: nat)
    requires i < |Deque(s, key)| && Deque(s, key)[i].id !in s.inflight && Deque(s, key)[i].tenant == tenant
    ensures QueueSpec.Ack(Taken(s, key, i), tenant, Deque(s, key)[i].id) == Ok(Settled(s, key, i, []))
  {
    var d := Deque(s, key);
    assert Taken(s, key, i).inflight - {d[i].id} == s.inflight;
    assert [] + d[i + 1..] + d[..i] == d[i + 1..] + d[..i];
  }

  /** Dequeue then nack with requeue: the message is back at the front, one attempt older. */
  lemma NackAfterTake(s: State, tenant: string, key: string, i: nat, delayMs: int, now: int)
    requires i < |Deque(s, key)| && Deque(s, key)[i].id !in s.inflight && Deque(s, key)[i].tenant == tenant
    requires key == QueueKey(tenant, Deque(s, key)[i].queue)
    ensures var m' := Bumped(Deque(s, key)[i], true, delayMs, now);
            QueueSpec.Nack(Taken(s, key, i), tenant, Deque(s, key)[i].id, true, delayMs, now)
              == Ok((Settled(s, key, i, [m']), Some(m')))
  {
    var d := Deque(s, key);
    var m' := Bumped(d[i], true, delayMs, now);
    var back := [m'] + d[i + 1..] + d[..i];
    assert Taken(s, key, i).inflight - {d[i].id} == s.inflight;
    assert [m'] + (d[i + 1..] + d[..i]) == back;
    assert Deque(Taken(s, key, i), key) == d[i + 1..] + d[..i];
    assert Taken(s, key, i).queues[key := back] == s.queues[key := back];
  }

  lemma AckedRefines(s: State, pool: Pool, tenant: string, queue: string, now: int)
    requires Refines(s, pool) && ColonFree(queue) && PlainNames(pool)
    requires FirstAvailable(Deque(s, QueueKey(tenant, queue)), now) < |Deque(s, QueueKey(tenant, queue))|
    ensures var key := QueueKey(tenant, queue);
            var i := FirstAvailable(Deque(s, key), now);
            Refines(Settled(s, key, i, []), pool - {Deque(s, key)[i].id})
  {
    var key := QueueKey(tenant, queue);
    var i := FirstAvailable(Deque(s, key), now);
    var m := Deque(s, key)[i];
    TakenIsOwn(s, pool, tenant, queue, i);
    DequeueRefines(s, pool, tenant, queue, now);
    AckAfterTake(s, tenant, key, i);
    AckRefines(Taken(s, key, i), pool[m.id := InFlight(m)], tenant, m.id);
    assert pool[m.id := InFlight(m)] - {m.id} == pool - {m.id};
  }

  lemma RequeuedRefines(s: State, pool: Pool, tenant: string, id: string, delayMs: int, now: int, s': State, m: Message)
    requires Refines(s, pool) && QueueSpec.Nack(s, tenant, id, true, delayMs, now) == Ok((s', Some(m)))
    ensures Refines(s', pool[id := Pending(m)])
  {
    NackRefines(s, pool, tenant, id, true, delayMs, now);
  }

  lemma NackedRefines(s: State, pool: Pool, tenant: string, queue: string, now: int, delayMs: int, later: int)
    requires Refines(s, pool) && ColonFree(queue) && PlainNames(pool)
    requires FirstAvailable(Deque(s, QueueKey(tenant, queue)), now) < |Deque(s, QueueKey(tenant, queue))|
    ensures var key := QueueKey(tenant, queue);
            var i := FirstAvailable(Deque(s, key), now);
            var m' := Bumped(Deque(s, key)[i], true, delayMs, later);
            Refines(Settled(s, key, i, [m']), pool[m'.id := Pending(m')])
  {
    var key := QueueKey(tenant, queue);
    var i := FirstAvailable(Deque(s, key), now);
    var m := Deque(s, key)[i];
    TakenIsOwn(s, pool, tenant, queue, i);
    DequeueRefines(s, pool, tenant, queue, now);
    PutBackRefines(s, pool, tenant, key, i, delayMs, later);
  }

  lemma PutBackRefines(s: State, pool: Pool, tenant: string, key: string, i: nat, delayMs: int, now: int)
    requires i < |Deque(s, key)| && Deque(s, key)[i].id !in s.inflight && Deque(s, key)[i].tenant == tenant
    requires key == QueueKey(tenant, Deque(s, key)[i].queue)
    requires Refines(Taken(s, key, i), pool[Deque(s, key)[i].id := InFlight(Deque(s, key)[i])])
    ensures var m' := Bumped(Deque(s, key)[i], true, delayMs, now);
            Refines(Settled(s, key, i, [m']), pool[m'.id := Pending(m')])
  {
    var m := Deque(s, key)[i];
    var m' := Bumped(m, true, delayMs, now);
    NackAfterTake(s, tenant, key, i, delayMs, now);
    RequeuedRefines(Taken(s, key, i), pool[m.id := InFlight(m)], tenant, m.id, delayMs, now, Settled(s, key, i, [m']),
                    m');
    assert pool[m.id := InFlight(m)][m.id := Pending(m')] == pool[m.id := Pending(m')];
  }

  /** However a message is settled, the due count of its deque falls, or stays when it is due again at once. */
  lemma SettledDue(s: State, key: string, now: int, back: seq<Message>)
    requires FirstAvailable(Deque(s, key), now) < |Deque(s, key)| && |back| <= 1
    ensures var s' := Settled(s, key, FirstAvailable(Deque(s, key), now), back);
            NeverMoreDue(s, s', now) && OnlyKeyTouched(s, s', key)
  {
    var d := Deque(s, key);
    var i := FirstAvailable(d, now);
    DueCountTake(d, now);
    DueCountConcat(back, d[i + 1..] + d[..i], now);
    assert back + (d[i + 1..] + d[..i]) == back + d[i + 1..] + d[..i];
    assert DueCount(back, now) <= 1;
    FewerDueHere(s, Settled(s, key, i, back), key, now);
  }

  lemma FewerDueHere(s: State, s': State, key: string, now: int)
    requires OnlyKeyTouched(s, s', key) && DueCount(Deque(s', key), now) <= DueCount(Deque(s, key), now)
    ensures NeverMoreDue(s, s', now)
  {
  }

  // ---- The surroundings of the worker ----

  /** A clock that may move at every reading; `FrozenAt` says that it does not. */
  class Clock {
    const reading: nat -> int
    var tick: nat

    constructor (reading: nat -> int)
      ensures this.reading == reading
    {
      this.reading := reading;
      tick := 0;
    }

    ghost predicate FrozenAt(now: int) {
      forall i: nat :: reading(i) == now
    }

    method Now() returns (t: int)
      modifies this
      ensures t == reading(old(tick)) && tick == old(tick) + 1 && forall now :: FrozenAt(now) ==> t == now
    {
      t := reading(tick);
      tick := tick + 1;
    }
  }

  /** The job store as the worker sees it: each run returns some final status or raises. */
  class JobRunner {
    const outcome: (nat, string, string) -> RunResult
    var calls: nat
    /** How many runs ended in which way, whatever the delay, and how the worker judges them. */
    ghost var ended: multiset<RunResult>
    ghost var verdicts: multiset<Verdict>

    constructor (outcome: (nat, string, string) -> RunResult)
      ensures this.outcome == outcome && calls == 0 && ended == multiset{} && verdicts == multiset{}
    {
      this.outcome := outcome;
      calls, ended, verdicts := 0, multiset{}, multiset{};
    }

    /** One run of this verdict was added, or none. */
    twostate predicate Counted(v: Verdict)
      reads this
    {
      && verdicts[Fine] == old(verdicts[Fine]) + (if v == Fine then 1 else 0)
      && verdicts[Again] == old(verdicts[Again]) + (if v == Again then 1 else 0)
      && verdicts[Bad] == old(verdicts[Bad]) + (if v == Bad then 1 else 0)
    }

    method RunJobOnce(jobId: string, tenant: string) returns (r: RunResult)
      modifies this
      ensures r == outcome(old(calls), jobId, tenant) && calls == old(calls) + 1
      ensures ended == old(ended) + multiset{Plain(r)} && verdicts == old(verdicts) + multiset{VerdictOf(r)}
    {
      r := outcome(calls, jobId, tenant);
      calls := calls + 1;
      ended, verdicts := ended + multiset{Plain(r)}, verdicts + multiset{VerdictOf(r)};
    }
  }

  datatype Counts = Counts(processed: nat, succeeded: nat, retrying: nat, failed: nat, acked: nat, requeued: nat)

  /** What one turn of the drain-once route came to. */
  datatype Drained = Nothing | Acked(result: Option<RunResult>) | Requeued | Stuck(msg: Message)

  /** The runs of the turn by the way they ended. */
  ghost function Endings(drained: Drained): multiset<RunResult> {
    match drained
    case Nothing => multiset{}
    case Acked(result) => if result.Some? then multiset{Plain(result.value)} else multiset{}
    case Requeued => multiset{Retrying(0)}
    case Stuck(_) => multiset{Raised}
  }

  function Tallied(c: Counts, drained: Drained): Counts {
    match drained
    case Nothing => c
    case Stuck(_) => c.(processed := c.processed + 1)
    case Requeued => c.(processed := c.processed + 1, requeued := c.requeued + 1, retrying := c.retrying + 1)
    case Acked(None) => c.(processed := c.processed + 1, acked := c.acked + 1)
    case Acked(Some(Succeeded)) =>
      c.(processed := c.processed + 1, acked := c.acked + 1, succeeded := c.succeeded + 1)
    case Acked(Some(_)) => c.(processed := c.processed + 1, acked := c.acked + 1, failed := c.failed + 1)
  }

  /**
   * The route counts these runs by the way they ended. Unlike the worker it counts a run that awaits a decision as
   * failed, and a run that raised not at all.
   */
  ghost predicate Reports(c: Counts, runs: multiset<RunResult>) {
    && c.succeeded == runs[Succeeded] && c.retrying == runs[Retrying(0)]
    && c.failed == runs[NeedsManualDecision] + runs[OtherStatus]
    && |runs| == c.succeeded + c.retrying + c.failed + runs[Raised]
  }

  /** After n turns, each message is acked or requeued, and the runs are reported; the last one may have raised. */
  ghost predicate Books(c: Counts, runs: multiset<RunResult>, n: nat, raised: bool) {
    && c.processed == n == c.acked + c.requeued + (if raised then 1 else 0)
    && c.retrying == c.requeued && c.succeeded + c.failed <= c.acked
    && Reports(c, runs) && runs[Raised] == if raised then 1 else 0
  }

  lemma TalliedBooks(c: Counts, drained: Drained, runs: multiset<RunResult>, n: nat)
    requires Books(c, runs, n, false) && !drained.Nothing?
    requires drained.Acked? && drained.result.Some? ==>
               !drained.result.value.Retrying? && !drained.result.value.Raised?
    ensures Books(Tallied(c, drained), runs + Endings(drained), n + 1, drained.Stuck?)
    ensures Tallied(c, drained).acked == c.acked + if drained.Acked? then 1 else 0
  {
  }

  /**
   * The handled messages lead from one ledger to the other, but for one message whose run raised: it is in flight now,
   * and was pending before that run.
   */
  ghost predicate Explains(w: World, a: Ledger, handled: seq<Turn>, b: Ledger, stuck: Option<Message>) {
    match stuck
    case None => History(w, a, handled, b)
    case Some(m) =>
      && m.id in b.pool && b.pool[m.id] == InFlight(m) && b.calls > 0
      && w.outcome(b.calls - 1, m.payload.jobId, m.tenant).Raised?
      && History(w, a, handled, Ledger(b.pool[m.id := Pending(m)], b.calls - 1, b.served))
  }

  /** What one turn of the route does to pool and run counter. */
  ghost predicate RouteTurn(w: World, a: Ledger, b: Ledger, drained: Drained, turn: Option<Turn>, queueName: string,
                            tenant: string) {
    && b.calls == a.calls + |Endings(drained)| && |b.pool| == |a.pool| - (if drained.Acked? then 1 else 0)
    && match drained
       case Nothing => b.pool == a.pool && turn.None?
       case Stuck(m) =>
         && Holds(a.pool, m) && b.pool == a.pool[m.id := InFlight(m)] && m.tenant == tenant && turn.None?
         && w.outcome(a.calls, m.payload.jobId, tenant).Raised?
       case Requeued => turn.Some? && TurnIn(w, a, b, turn.value, queueName, tenant) && turn.value.back.Some?
       case Acked(result) =>
         && turn.Some? && TurnIn(w, a, b, turn.value, queueName, tenant) && turn.value.back.None?
         && (result.None? <==> turn.value.msg.payload.jobId == "")
         && (result.Some? ==> !result.value.Retrying? && !result.value.Raised?)
  }

  ghost predicate TurnIn(w: World, a: Ledger, b: Ledger, turn: Turn, queueName: string, tenant: string) {
    TurnOk(w, a.pool, a.calls, turn) && IsOf(turn, queueName, tenant) && b.pool == Moved(a.pool, turn)
  }

  /**
   * What a request of the route did: its counters are those of its messages and runs, it acked or put back the messages
   * of this tenant and queue that it lists, and it left at most the last one, of a run that raised, in flight.
   */
  ghost predicate Drains(w: World, a: Ledger, b: Ledger, counts: Counts, runs: multiset<RunResult>,
                         stuck: Option<Message>, queueName: string, tenant: string) {
    && Books(counts, runs, counts.processed, stuck.Some?)
    && Explains(w, a, b.served, b, stuck)
    && AllOf(b.served, queueName, tenant) && |b.served| == counts.acked + counts.requeued
    && b.calls == a.calls + |runs| && |b.pool| == |a.pool| - counts.acked
  }

  lemma DrainsMore(w: World, a: Ledger, b: Ledger, counts: Counts, runs: multiset<RunResult>, queueName: string,
                   tenant: string, drained: Drained, turn: Option<Turn>, c: Ledger)
    requires Drains(w, a, b, counts, runs, None, queueName, tenant)
    requires RouteTurn(w, b, c, drained, turn, queueName, tenant) && turn.Some? && c.served == b.served + [turn.value]
    ensures Drains(w, a, c, Tallied(counts, drained), runs + Endings(drained), None, queueName, tenant)
    ensures Tallied(counts, drained).processed == counts.processed + 1
  {
    assert c == Entered(b, turn.value);
    OneTurn(w, b, turn.value);
    HistoryConcat(w, a, b.served, b, [turn.value], c);
    CountOne(turn.value, queueName, tenant);
    CountConcat(b.served, [turn.value], queueName, tenant);
    TalliedBooks(counts, drained, runs, counts.processed);
  }

  lemma DrainsStuck(w: World, a: Ledger, b: Ledger, counts: Counts, runs: multiset<RunResult>, queueName: string,
                    tenant: string, drained: Drained, c: Ledger)
    requires Drains(w, a, b, counts, runs, None, queueName, tenant)
    requires RouteTurn(w, b, c, drained, None, queueName, tenant) && drained.Stuck? && c.served == b.served
    ensures Drains(w, a, c, Tallied(counts, drained), runs + Endings(drained), Some(drained.msg), queueName, tenant)
    ensures Tallied(counts, drained).processed == counts.processed + 1
  {
    var m := drained.msg;
    assert c.pool[m.id := Pending(m)] == b.pool;
    TalliedBooks(counts, drained, runs, counts.processed);
  }

  /** One more turn; the caller's ledger lists the route's own messages, while c lists the worker's. */
  lemma DrainsTurn(w: World, a: Ledger, b: Ledger, counts: Counts, runs: multiset<RunResult>, queueName: string,
                   tenant: string, drained: Drained, turn: Option<Turn>, c: Ledger)
    requires Drains(w, a, b, counts, runs, None, queueName, tenant) && !drained.Nothing?
    requires RouteTurn(w, b, c, drained, turn, queueName, tenant)
    ensures Tallied(counts, drained).processed == counts.processed + 1
    ensures if drained.Stuck? then
              Drains(w, a, Ledger(c.pool, c.calls, b.served), Tallied(counts, drained), runs + Endings(drained),
                     Some(drained.msg), queueName, tenant)
            else
              && turn.Some?
              && Drains(w, a, Ledger(c.pool, c.calls, b.served + [turn.value]), Tallied(counts, drained),
                        runs + Endings(drained), None, queueName, tenant)
  {
    if drained.Stuck? {
      DrainsStuck(w, a, b, counts, runs, queueName, tenant, drained, Ledger(c.pool, c.calls, b.served));
    } else {
      DrainsMore(w, a, b, counts, runs, queueName, tenant, drained, turn,
                 Ledger(c.pool, c.calls, b.served + [turn.value]));
    }
  }

  class WorkerRunStats {
    var processed: nat
    var succeeded: nat
    var retrying: nat
    var failed: nat
    var acked: nat
    var requeued: nat

    constructor ()
      ensures AsDict() == Counts(0, 0, 0, 0, 0, 0)
    {
      processed, succeeded, retrying, failed, acked, requeued := 0, 0, 0, 0, 0, 0;
    }

    /** One message of this verdict was added to the counters. */
    twostate predicate Gained(v: Verdict)
      reads this
    {
      && succeeded == old(succeeded) + (if v == Fine then 1 else 0)
      && retrying == old(retrying) + (if v == Again then 1 else 0)
      && failed == old(failed) + (if v == Bad then 1 else 0)
      && requeued == old(requeued) + (if v == Again then 1 else 0)
      && acked == old(acked) + (if v == Again then 0 else 1)
    }

    method Count(v: Verdict)
      modifies this
      ensures Gained(v) && processed == old(processed)
    {
      if v == Again {
        requeued, retrying := requeued + 1, retrying + 1;
        return;
      }
      acked := acked + 1;
      if v == Fine {
        succeeded := succeeded + 1;
      } else if v == Bad {
        failed := failed + 1;
      }
    }

    function AsDict(): Counts
      reads this
    {
      Counts(processed, succeeded, retrying, failed, acked, requeued)
    }
  }

  /** The counters, the calls made of the job store, and the verdicts on their results. */
  datatype Account = Account(counts: Counts, calls: nat, verdicts: multiset<Verdict>)

  /** From a to b every message was acked or requeued, and every run of a job is counted under its verdict. */
  ghost predicate Adds(a: Account, b: Account) {
    && b.counts.processed - a.counts.processed
         == (b.counts.acked - a.counts.acked) + (b.counts.requeued - a.counts.requeued)
    && b.counts.retrying - a.counts.retrying == b.counts.requeued - a.counts.requeued
    && b.calls - a.calls
         == (b.counts.succeeded - a.counts.succeeded) + (b.counts.retrying - a.counts.retrying)
            + (b.counts.failed - a.counts.failed)
    && b.verdicts[Fine] + a.counts.succeeded == a.verdicts[Fine] + b.counts.succeeded
    && b.verdicts[Again] + a.counts.retrying == a.verdicts[Again] + b.counts.retrying
    && b.verdicts[Bad] + a.counts.failed == a.verdicts[Bad] + b.counts.failed
    && b.calls - a.calls <= b.counts.processed - a.counts.processed
    && a.counts.acked <= b.counts.acked && a.counts.processed <= b.counts.processed && a.calls <= b.calls
  }

  ghost function AccountOf(stats: WorkerRunStats, store: JobRunner): Account
    reads stats, store
  {
    Account(stats.AsDict(), store.calls, store.verdicts)
  }

  /** What a stretch of work adds to the counters, next to the calls it made of the job store. */
  twostate predicate Accounted(stats: WorkerRunStats, store: JobRunner)
    reads stats, store
  {
    Adds(old(AccountOf(stats, store)), AccountOf(stats, store))
  }

  /** One counted message is accounted for. */
  lemma OneAdds(a: Account, b: Account, v: Verdict)
    requires b.counts.processed == a.counts.processed + 1
    requires b.counts.succeeded == a.counts.succeeded + if v == Fine then 1 else 0
    requires b.counts.retrying == a.counts.retrying + if v == Again then 1 else 0
    requires b.counts.failed == a.counts.failed + if v == Bad then 1 else 0
    requires b.counts.acked == a.counts.acked + if v == Again then 0 else 1
    requires b.counts.requeued == a.counts.requeued + if v == Again then 1 else 0
    requires b.calls == a.calls + if v == NoJob then 0 else 1
    requires b.verdicts[Fine] == a.verdicts[Fine] + if v == Fine then 1 else 0
    requires b.verdicts[Again] == a.verdicts[Again] + if v == Again then 1 else 0
    requires b.verdicts[Bad] == a.verdicts[Bad] + if v == Bad then 1 else 0
    ensures Adds(a, b)
  {
  }

  // ---- What a run promises ----

  lemma PrefixGrows(s: seq<string>, i: nat)
    requires i < |s|
    ensures s[..i] + [s[i]] == s[..i + 1]
  {
  }

  lemma WholePrefix(s: seq<string>)
    ensures s[..0] == [] && s[..|s|] == s
  {
  }

  class WorkerRuntime {
    const queue: InMemoryQueueBackend
    const store: JobRunner
    const clock: Clock
    const queueNames: seq<string>
    const tenantBurstLimit: nat
    const maxMessagesPerIteration: nat
    /** The messages of the queue, and the log of all messages the worker ever handled. */
    ghost var pool: Pool
    ghost var served: seq<Turn>

    constructor (queue: InMemoryQueueBackend, store: JobRunner, clock: Clock, queueNames: seq<string>,
                 tenantBurstLimit: int, maxMessagesPerIteration: int, ghost pool: Pool)
      ensures this.queue == queue && this.store == store && this.clock == clock && this.pool == pool && served == []
      ensures this.queueNames == if queueNames == [] then ["jobs"] else queueNames
      ensures this.tenantBurstLimit == Max(1, tenantBurstLimit)
      ensures this.maxMessagesPerIteration == Max(1, maxMessagesPerIteration)
    {
      this.queue, this.store, this.clock, this.pool, served := queue, store, clock, pool, [];
      this.queueNames := if queueNames == [] then ["jobs"] else queueNames;
      this.tenantBurstLimit := Max(1, tenantBurstLimit);
      this.maxMessagesPerIteration := Max(1, maxMessagesPerIteration);
    }

    ghost function Around(): World {
      World(store.outcome, clock.reading)
    }

    ghost function Book(): Ledger
      reads this, store
    {
      Ledger(pool, store.calls, served)
    }

    /** The queue is sound, `pool` lists its messages, and queue names are free of colons. */
    ghost predicate Ready()
      reads this, queue
    {
      Refines(queue.Value(), pool) && PlainNames(pool) && 1 <= tenantBurstLimit
    }

    method ProcessMessage(queueName: string, tenant: string, stats: WorkerRunStats, ghost frozen: int)
      returns (handled: bool, ghost turns: seq<Turn>)
      requires Ready() && ColonFree(queueName)
      modifies this, queue, store, clock, stats
      ensures Ready() && queue.inflight == old(queue.inflight)
      ensures Logged(turns) && AllOf(turns, queueName, tenant) && |turns| == (if handled then 1 else 0)
      ensures served == old(served) + turns && (handled ==> ReadsNow(turns[0]))
      ensures Accounted(stats, store)
      ensures stats.processed == old(stats.processed) + if handled then 1 else 0
      ensures |pool| + stats.acked == old(|pool| + stats.acked)
      ensures OnlyKeyTouched(old(queue.Value()), queue.Value(), QueueKey(tenant, queueName))
      ensures clock.FrozenAt(frozen) ==> NeverMoreDue(old(queue.Value()), queue.Value(), frozen)
      ensures clock.FrozenAt(frozen) ==> (handled <==> Due(old(queue.Value()), tenant, queueName, frozen) > 0)
    {
      ghost var s := queue.Value();
      var msg, now := TakeMessage(queueName, tenant, frozen);
      if msg.None? {
        return false, [];
      }
      ghost var turn := RunAndLog(s, queueName, tenant, now, msg.value, stats);
      return true, [turn];
    }

    /** These messages were handled: the log grew by them, and they explain how the pool changed. */
    twostate predicate Logged(turns: seq<Turn>)
      reads this, store
    {
      History(Around(), old(Book()), turns, Book())
    }

    /** The dequeue call of `_process_message`, at whatever time the clock gives. */
    method TakeMessage(queueName: string, tenant: string, ghost frozen: int)
      returns (msg: Option<Message>, ghost now: int)
      requires Ready() && ColonFree(queueName)
      modifies queue, clock
      ensures (clock.FrozenAt(frozen) ==> now == frozen) && old(clock.tick) <= clock.tick
      ensures msg.None? <==> Due(old(queue.Value()), tenant, queueName, now) == 0
      ensures msg.None? ==> Ready() && queue.inflight == old(queue.inflight)
      ensures msg.None? ==> forall k :: Deque(queue.Value(), k) == Deque(old(queue.Value()), k)
      ensures msg.Some? ==> Holding(old(queue.Value()), queueName, tenant, now, msg.value)
    {
      ghost var s, key := queue.Value(), QueueKey(tenant, queueName);
      var time := clock.Now();
      now := time;
      DueCountTake(Deque(s, key), time);
      msg := queue.Dequeue(tenant, queueName, time);
      if msg.None? {
        TouchRefines(s, pool, key);
      }
    }

    /** What becomes of a message: nothing to run, or the verdict on the n-th run, which is of its job and tenant. */
    function VerdictFor(m: Message, tenant: string, n: nat): Verdict {
      if m.payload.jobId == "" then NoJob else VerdictOf(store.outcome(n, m.payload.jobId, tenant))
    }

    /** The part of `_process_message` after a message was taken: run its job, then ack or nack it. */
    method RunAndSettle(ghost s: State, queueName: string, tenant: string, ghost now: int, m: Message,
                        stats: WorkerRunStats)
      returns (ghost turn: Turn)
      requires Holding(s, queueName, tenant, now, m)
      modifies this, queue, store, clock, stats
      ensures Ready() && queue.inflight == s.inflight
      ensures turn.msg == m && IsOf(turn, queueName, tenant) && Took(turn)
      ensures TurnOk(Around(), old(pool), old(store.calls), turn)
      ensures ReadsNow(turn) && Accounted(stats, store)
      ensures var v := VerdictFor(m, tenant, old(store.calls));
              && stats.Gained(v)
              && (turn.back.Some? <==> v == Again)
      ensures store.calls == old(store.calls) + if m.payload.jobId == "" then 0 else 1
      ensures stats.processed == old(stats.processed) + 1
      ensures |pool| + stats.acked == old(|pool| + stats.acked)
      ensures NeverMoreDue(s, queue.Value(), now) && OnlyKeyTouched(s, queue.Value(), QueueKey(tenant, queueName))
    {
      stats.processed := stats.processed + 1;
      var verdict;
      verdict, turn := RunOrSkip(s, queueName, tenant, now, m);
      stats.Count(verdict);
      OneAdds(old(AccountOf(stats, store)), AccountOf(stats, store), verdict);
    }

    /** Runs the job of a message, if it has one, and settles the message. */
    method RunOrSkip(ghost s: State, queueName: string, tenant: string, ghost now: int, m: Message)
      returns (verdict: Verdict, ghost turn: Turn)
      requires Holding(s, queueName, tenant, now, m)
      modifies this, queue, store, clock
      ensures Ready() && queue.inflight == s.inflight
      ensures verdict == VerdictFor(m, tenant, old(store.calls))
      ensures store.calls == old(store.calls) + if m.payload.jobId == "" then 0 else 1
      ensures store.Counted(verdict)
      ensures turn.msg == m && IsOf(turn, queueName, tenant) && Took(turn) && (turn.back.Some? <==> verdict == Again)
      ensures TurnOk(Around(), old(pool), old(store.calls), turn) && ReadsNow(turn)
      ensures |pool| == old(|pool|) - (if verdict == Again then 0 else 1)
      ensures NeverMoreDue(s, queue.Value(), now) && OnlyKeyTouched(s, queue.Value(), QueueKey(tenant, queueName))
    {
      if m.payload.jobId == "" {
        turn := SettleMessage(s, queueName, tenant, now, m, None, store.calls);
        return NoJob, turn;
      }
      var result;
      result, turn := RunJob(s, queueName, tenant, now, m);
      verdict := VerdictOf(result);
    }

    /** Handles a message and logs it. */
    method RunAndLog(ghost s: State, queueName: string, tenant: string, ghost now: int, m: Message,
                     stats: WorkerRunStats)
      returns (ghost turn: Turn)
      requires Holding(s, queueName, tenant, now, m)
      modifies this, queue, store, clock, stats
      ensures Ready() && queue.inflight == s.inflight
      ensures Logged([turn]) && AllOf([turn], queueName, tenant) && served == old(served) + [turn]
      ensures ReadsNow(turn) && Accounted(stats, store)
      ensures stats.processed == old(stats.processed) + 1
      ensures |pool| + stats.acked == old(|pool| + stats.acked)
      ensures NeverMoreDue(s, queue.Value(), now) && OnlyKeyTouched(s, queue.Value(), QueueKey(tenant, queueName))
    {
      turn := RunAndSettle(s, queueName, tenant, now, m, stats);
      served := served + [turn];
      TurnIsHistory(Around(), old(Book()), turn, Book());
      CountOne(turn, queueName, tenant);
    }

    method RunJob(ghost s: State, queueName: string, tenant: string, ghost now: int, m: Message)
      returns (result: RunResult, ghost turn: Turn)
      requires Holding(s, queueName, tenant, now, m) && m.payload.jobId != ""
      modifies this, queue, store, clock
      ensures Ready() && queue.inflight == s.inflight
      ensures result == store.outcome(old(store.calls), m.payload.jobId, tenant) && store.calls == old(store.calls) + 1
      ensures store.verdicts == old(store.verdicts) + multiset{VerdictOf(result)}
      ensures turn.msg == m && IsOf(turn, queueName, tenant) && Took(turn) && (turn.back.Some? <==> result.Retrying?)
      ensures TurnOk(Around(), old(pool), old(store.calls), turn) && ReadsNow(turn)
      ensures |pool| == old(|pool|) - (if result.Retrying? then 0 else 1)
      ensures NeverMoreDue(s, queue.Value(), now) && OnlyKeyTouched(s, queue.Value(), QueueKey(tenant, queueName))
    {
      ghost var call := store.calls;
      result := store.RunJobOnce(m.payload.jobId, tenant);
      turn := SettleAnswer(s, queueName, tenant, now, m, result, call);
    }

    /** Nack with the answered delay after a retry, ack after anything else. */
    method SettleAnswer(ghost s: State, queueName: string, tenant: string, ghost now: int, m: Message,
                        result: RunResult, ghost call: nat)
      returns (ghost turn: Turn)
      requires Holding(s, queueName, tenant, now, m) && m.payload.jobId != ""
      requires result == store.outcome(call, m.payload.jobId, tenant)
      modifies this, queue, clock
      ensures Ready() && queue.inflight == s.inflight
      ensures turn.msg == m && IsOf(turn, queueName, tenant) && Took(turn) && (turn.back.Some? <==> result.Retrying?)
      ensures TurnOk(Around(), old(pool), call, turn) && ReadsNow(turn)
      ensures |pool| == old(|pool|) - (if result.Retrying? then 0 else 1)
      ensures NeverMoreDue(s, queue.Value(), now) && OnlyKeyTouched(s, queue.Value(), QueueKey(tenant, queueName))
    {
      turn := SettleMessage(s, queueName, tenant, now, m,
                            if result.Retrying? then Some(Max(0, result.retryAfterMs)) else None, call);
    }

    /** Nack with a delay, or ack. */
    method SettleMessage(ghost s: State, queueName: string, tenant: string, ghost now: int, m: Message,
                         delayMs: Option<int>, ghost call: nat)
      returns (ghost turn: Turn)
      requires Holding(s, queueName, tenant, now, m)
      modifies this, queue, clock
      ensures Ready() && queue.inflight == s.inflight
      ensures turn.msg == m && IsOf(turn, queueName, tenant) && Took(turn) && (turn.back.Some? <==> delayMs.Some?)
      ensures turn.call == call && ReadsNow(turn) && (delayMs.Some? ==> DueAfter(turn, delayMs.value))
      ensures |pool| == old(|pool|) - (if delayMs.None? then 1 else 0)
      ensures NeverMoreDue(s, queue.Value(), now) && OnlyKeyTouched(s, queue.Value(), QueueKey(tenant, queueName))
    {
      if delayMs.Some? {
        turn := RequeueMessage(s, queueName, tenant, now, m, delayMs.value, call);
      } else {
        turn := AckMessage(s, queueName, tenant, now, m, call);
      }
    }

    /** The queue stands as a dequeue at `now` left it, having taken the due message m out of `s`. */
    ghost predicate Holding(s: State, queueName: string, tenant: string, now: int, m: Message)
      reads this, queue
    {
      var key := QueueKey(tenant, queueName);
      var i := FirstAvailable(Deque(s, key), now);
      && Refines(s, pool) && PlainNames(pool) && ColonFree(queueName) && 1 <= tenantBurstLimit
      && i < |Deque(s, key)| && m == Deque(s, key)[i] && queue.Value() == Taken(s, key, i)
    }

    /** The message was pending and moved in the pool, and the log is not written yet. */
    twostate predicate Took(turn: Turn)
      reads this
    {
      && turn.msg.id in old(pool) && old(pool)[turn.msg.id] == Pending(turn.msg)
      && pool == Moved(old(pool), turn) && served == old(served)
    }

    /** The message was put back one attempt older, due the delay after the turn's reading of the clock. */
    ghost predicate DueAfter(turn: Turn, delayMs: int) {
      turn.back == Some(Later(turn.msg, clock.reading(turn.tick), if delayMs < 0 then 0 else delayMs))
    }

    /** The delay counts from a reading made in between. */
    twostate predicate ReadsNow(turn: Turn)
      reads clock
    {
      turn.back.Some? ==> old(clock.tick) <= turn.tick < clock.tick
    }

    method AckMessage(ghost s: State, queueName: string, tenant: string, ghost now: int, m: Message, ghost call: nat)
      returns (ghost turn: Turn)
      requires Holding(s, queueName, tenant, now, m)
      modifies this, queue
      ensures Ready() && queue.inflight == s.inflight
      ensures turn == Turn(m, None, call, 0) && IsOf(turn, queueName, tenant) && Took(turn) && |pool| == old(|pool|) - 1
      ensures NeverMoreDue(s, queue.Value(), now) && OnlyKeyTouched(s, queue.Value(), QueueKey(tenant, queueName))
    {
      ghost var key := QueueKey(tenant, queueName);
      TakenIsOwn(s, pool, tenant, queueName, FirstAvailable(Deque(s, key), now));
      AckAfterTake(s, tenant, key, FirstAvailable(Deque(s, key), now));
      AckedRefines(s, pool, tenant, queueName, now);
      SettledDue(s, key, now, []);
      var _ := queue.Ack(tenant, m.id);
      pool := pool - {m.id};
      turn := Turn(m, None, call, 0);
    }

    /** What a nack with requeue does to the queue that a dequeue left. */
    lemma RequeueFacts(s: State, queueName: string, tenant: string, now: int, m: Message, delayMs: int, later: int)
      requires Holding(s, queueName, tenant, now, m)
      ensures var key, m' := QueueKey(tenant, queueName), Bumped(m, true, delayMs, later);
              var s' := Settled(s, key, FirstAvailable(Deque(s, key), now), [m']);
              && QueueSpec.Nack(queue.Value(), tenant, m.id, true, delayMs, later) == Ok((s', Some(m')))
              && Refines(s', pool[m.id := Pending(m')]) && PlainNames(pool[m.id := Pending(m')])
              && s'.inflight == s.inflight && |pool[m.id := Pending(m')]| == |pool|
    {
      var key := QueueKey(tenant, queueName);
      var i := FirstAvailable(Deque(s, key), now);
      TakenIsOwn(s, pool, tenant, queueName, i);
      NackAfterTake(s, tenant, key, i, delayMs, later);
      NackedRefines(s, pool, tenant, queueName, now, delayMs, later);
      assert Bumped(m, true, delayMs, later).id == m.id;
    }

    method RequeueMessage(ghost s: State, queueName: string, tenant: string, ghost now: int, m: Message, delayMs: int,
                          ghost call: nat)
      returns (ghost turn: Turn)
      requires Holding(s, queueName, tenant, now, m)
      modifies this, queue, clock
      ensures Ready() && queue.inflight == s.inflight && |pool| == old(|pool|)
      ensures turn.msg == m && IsOf(turn, queueName, tenant) && Took(turn)
      ensures turn.call == call && ReadsNow(turn) && DueAfter(turn, delayMs)
      ensures NeverMoreDue(s, queue.Value(), now) && OnlyKeyTouched(s, queue.Value(), QueueKey(tenant, queueName))
    {
      var later := clock.Now();
      RequeueFacts(s, queueName, tenant, now, m, delayMs, later);
      TakenIsOwn(s, pool, tenant, queueName, FirstAvailable(Deque(s, QueueKey(tenant, queueName)), now));
      SettledDue(s, QueueKey(tenant, queueName), now, [Bumped(m, true, delayMs, later)]);
      turn := Turn(m, Some(Bumped(m, true, delayMs, later)), call, old(clock.tick));
      BumpedIsLater(m, delayMs, later);
      assert DueAfter(turn, delayMs);
      ghost var after := Moved(pool, turn);
      var _ := queue.Nack(tenant, m.id, true, delayMs, later);
      pool := after;
    }

    // ---- The drain-once route ----

    /**
     * One turn of the route's loop. The message is acked, or put back one attempt older and due the run's own delay
     * later; a run that raises is not caught, and its message stays in flight.
     */
    method DrainMessage(queueName: string, tenant: string) returns (drained: Drained, ghost turn: Option<Turn>)
      requires Ready() && ColonFree(queueName)
      modifies this, queue, store, clock
      ensures Ready() && served == old(served)
      ensures if drained.Stuck? then queue.inflight == old(queue.inflight)[drained.msg.id := drained.msg]
              else queue.inflight == old(queue.inflight)
      ensures store.ended == old(store.ended) + Endings(drained)
      ensures RouteTurn(Around(), old(Book()), Book(), drained, turn, queueName, tenant)
      ensures turn.Some? ==> ReadsNow(turn.value)
    {
      ghost var s := queue.Value();
      var msg, now := TakeMessage(queueName, tenant, 0);
      if msg.None? {
        return Nothing, None;
      }
      drained, turn := DrainTaken(s, queueName, tenant, now, msg.value);
    }

    /** The part of the turn after a message was taken. */
    method DrainTaken(ghost s: State, queueName: string, tenant: string, ghost now: int, m: Message)
      returns (drained: Drained, ghost turn: Option<Turn>)
      requires Holding(s, queueName, tenant, now, m)
      modifies this, queue, store, clock
      ensures Ready() && served == old(served)
      ensures queue.inflight == if drained.Stuck? then s.inflight[m.id := m] else s.inflight
      ensures |pool| == old(|pool|) - (if drained.Acked? then 1 else 0)
      ensures store.ended == old(store.ended) + Endings(drained)
      ensures store.calls == old(store.calls) + |Endings(drained)|
      ensures !drained.Nothing? && (drained.Stuck? ==> drained.msg == m && m.tenant == tenant && InFlightNow(m))
      ensures drained.Stuck? ==> store.outcome(old(store.calls), m.payload.jobId, tenant).Raised?
      ensures turn.Some? <==> drained.Acked? || drained.Requeued?
      ensures turn.Some? ==>
                && TurnOk(Around(), old(pool), old(store.calls), turn.value) && IsOf(turn.value, queueName, tenant)
                && ReadsNow(turn.value) && (turn.value.back.Some? <==> drained.Requeued?)
                && Took(turn.value) && (drained == Acked(None) <==> turn.value.msg.payload.jobId == "")
      ensures drained.Acked? && drained.result.Some? ==>
                !drained.result.value.Retrying? && !drained.result.value.Raised?
    {
      if m.payload.jobId == "" {
        ghost var done := SettleMessage(s, queueName, tenant, now, m, None, store.calls);
        return Acked(None), Some(done);
      }
      drained, turn := DrainJob(s, queueName, tenant, now, m);
    }

    method DrainJob(ghost s: State, queueName: string, tenant: string, ghost now: int, m: Message)
      returns (drained: Drained, ghost turn: Option<Turn>)
      requires Holding(s, queueName, tenant, now, m) && m.payload.jobId != ""
      modifies this, queue, store, clock
      ensures Ready() && served == old(served)
      ensures queue.inflight == if drained.Stuck? then s.inflight[m.id := m] else s.inflight
      ensures |pool| == old(|pool|) - (if drained.Acked? then 1 else 0)
      ensures store.calls == old(store.calls) + 1
      ensures store.ended == old(store.ended) + Endings(drained) && |Endings(drained)| == 1
      ensures !drained.Nothing? && (drained.Stuck? ==> drained.msg == m && m.tenant == tenant && InFlightNow(m))
      ensures drained.Stuck? ==> store.outcome(old(store.calls), m.payload.jobId, tenant).Raised?
      ensures turn.Some? <==> drained.Acked? || drained.Requeued?
      ensures turn.Some? ==>
                && turn.value.msg == m && Took(turn.value) && TurnOk(Around(), old(pool), old(store.calls), turn.value)
                && IsOf(turn.value, queueName, tenant)
                && ReadsNow(turn.value) && (turn.value.back.Some? <==> drained.Requeued?)
      ensures drained.Acked? ==>
                drained.result.Some? && !drained.result.value.Retrying? && !drained.result.value.Raised?
    {
      ghost var call := store.calls;
      var result := store.RunJobOnce(m.payload.jobId, tenant);
      if result.Raised? {
        StuckIsReady(s, queueName, tenant, now, m);
        pool := pool[m.id := InFlight(m)];
        return Stuck(m), None;
      }
      ghost var done := SettleAnswer(s, queueName, tenant, now, m, result, call);
      return if result.Retrying? then Requeued else Acked(Some(result)), Some(done);
    }

    /** A pending message is in flight now, and all else is as it was. */
    twostate predicate InFlightNow(m: Message)
      reads this
    {
      Holds(old(pool), m) && pool == old(pool)[m.id := InFlight(m)]
    }

    lemma StuckIsReady(s: State, queueName: string, tenant: string, now: int, m: Message)
      requires Holding(s, queueName, tenant, now, m)
      ensures Holds(pool, m) && m.tenant == tenant && PlainNames(pool[m.id := InFlight(m)])
      ensures Refines(queue.Value(), pool[m.id := InFlight(m)]) && queue.inflight == s.inflight[m.id := m]
    {
      TakenIsOwn(s, pool, tenant, queueName, FirstAvailable(Deque(s, QueueKey(tenant, queueName)), now));
      DequeueRefines(s, pool, tenant, queueName, now);
    }

    /**
     * The route drains up to `maxMessages` messages of one tenant. `handled` are the messages it acked or put back,
     * each put back with its own delay; they explain the pool but for the message of a run that raised, which ends the
     * request and stays in flight.
     */
    method DrainOnce(queueName: string, tenant: string, maxMessages: nat)
      returns (counts: Counts, stuck: Option<Message>, ghost runs: multiset<RunResult>, ghost handled: seq<Turn>)
      requires Ready() && ColonFree(queueName)
      modifies this, queue, store, clock
      ensures Ready() && counts.processed <= maxMessages
      ensures queue.inflight == if stuck.Some? then old(queue.inflight)[stuck.value.id := stuck.value]
                else old(queue.inflight)
      ensures store.ended == old(store.ended) + runs
      ensures Drains(Around(), old(Ledger(pool, store.calls, [])), Ledger(pool, store.calls, handled), counts, runs,
                     stuck, queueName, tenant)
    {
      counts, stuck, runs, handled := Counts(0, 0, 0, 0, 0, 0), None, multiset{}, [];
      ghost var w, start := Around(), Ledger(pool, store.calls, []);
      for i := 0 to maxMessages
        invariant Ready() && queue.inflight == old(queue.inflight) && stuck.None? && counts.processed == i
        invariant store.ended == old(store.ended) + runs
        invariant Drains(w, start, Ledger(pool, store.calls, handled), counts, runs, stuck, queueName, tenant)
      {
        ghost var before := Ledger(pool, store.calls, handled);
        var drained;
        ghost var turn;
        drained, turn := DrainMessage(queueName, tenant);
        if drained.Nothing? {
          break;
        }
        DrainsTurn(w, start, before, counts, runs, queueName, tenant, drained, turn, Book());
        counts, runs := Tallied(counts, drained), runs + Endings(drained);
        if drained.Stuck? {
          stuck := Some(drained.msg);
          break;
        }
        handled := handled + [turn.value];
      }
    }

    // ---- The worker loop ----

    /** What every stretch of work keeps: a sound queue, no message left in flight, every message accounted for. */
    twostate predicate Worked(stats: WorkerRunStats)
      reads this, queue, stats, store
    {
      && Ready() && queue.inflight == old(queue.inflight)
      && Accounted(stats, store)
      && |pool| + stats.acked == old(|pool| + stats.acked)
      && (old(stats.processed) <= maxMessagesPerIteration ==> stats.processed <= maxMessagesPerIteration)
    }

    /** How this stretch of work sees clock and quota. */
    ghost function ViewOf(frozen: int, stats: WorkerRunStats): View
      reads stats
    {
      View(clock.FrozenAt(frozen), frozen, stats.processed < maxMessagesPerIteration)
    }

    /** The innermost loop: up to `tenantBurstLimit` messages of one tenant. */
    method RunBurst(queueName: string, tenant: string, stats: WorkerRunStats, ghost frozen: int)
      returns (progressed: bool, ghost handled: seq<Turn>)
      requires Ready() && ColonFree(queueName)
      modifies this, queue, store, clock, stats
      ensures Worked(stats) && Logged(handled)
      ensures stats.processed == old(stats.processed) + |handled| && (progressed <==> handled != [])
      ensures BurstOk(old(queue.Value()), queue.Value(), queueName, tenant, handled, tenantBurstLimit,
                      ViewOf(frozen, stats))
    {
      progressed, handled := false, [];
      for n := 0 to tenantBurstLimit
        invariant Worked(stats) && Logged(handled)
        invariant stats.processed == old(stats.processed) + n && |handled| == n
        invariant progressed <==> handled != []
        invariant Bursting(old(queue.Value()), queue.Value(), queueName, tenant, handled, clock.FrozenAt(frozen),
                           frozen)
      {
        if stats.processed >= maxMessagesPerIteration {
          break;
        }
        ghost var before, book, soFar, turns := queue.Value(), Book(), handled, [];
        var done;
        done, turns := ProcessMessage(queueName, tenant, stats, frozen);
        progressed := progressed || done;
        HistoryConcat(Around(), old(Book()), soFar, book, turns, Book());
        BurstingMore(old(queue.Value()), before, queue.Value(), queueName, tenant, soFar, turns,
                     clock.FrozenAt(frozen), frozen);
        handled := soFar + turns;
        if !done {
          break;
        }
      }
    }

    /** The middle loop: one burst for every listed tenant. */
    method RunRound(queueName: string, tenants: seq<string>, stats: WorkerRunStats, ghost frozen: int)
      returns (progressed: bool, ghost handled: seq<Turn>)
      requires Ready() && ColonFree(queueName) && NoDuplicates(tenants) && "" !in tenants
      modifies this, queue, store, clock, stats
      ensures Worked(stats) && Logged(handled)
      ensures stats.processed == old(stats.processed) + |handled| && (progressed <==> handled != [])
      ensures RoundOk(old(queue.Value()), queue.Value(), queueName, tenants, handled, tenantBurstLimit,
                      ViewOf(frozen, stats))
    {
      progressed, handled := false, [];
      ghost var done: seq<string> := [];
      WholePrefix(tenants);
      RoundStart(queue.Value(), queueName, tenantBurstLimit, ViewOf(frozen, stats));
      for i := 0 to |tenants|
        invariant Worked(stats) && Logged(handled)
        invariant stats.processed == old(stats.processed) + |handled| && (progressed <==> handled != [])
        invariant done == tenants[..i]
        invariant RoundOk(old(queue.Value()), queue.Value(), queueName, done, handled, tenantBurstLimit,
                          ViewOf(frozen, stats))
      {
        ghost var before, book, soFar, view := queue.Value(), Book(), handled, ViewOf(frozen, stats);
        assert tenants[i] !in done && tenants[i] in tenants;
        ghost var own: seq<Turn>;
        var moved;
        moved, own := RunBurst(queueName, tenants[i], stats, frozen);
        progressed := progressed || moved;
        HistoryConcat(Around(), old(Book()), soFar, book, own, Book());
        RoundStep(old(queue.Value()), before, queue.Value(), queueName, done, tenants[i], soFar, own, tenantBurstLimit,
                  view, ViewOf(frozen, stats));
        handled, done := soFar + own, done + [tenants[i]];
        PrefixGrows(tenants, i);
      }
    }

    /** The loop over rounds of one queue, until the quota is used up or a round moves nothing. */
    method DrainQueue(queueName: string, stats: WorkerRunStats, ghost frozen: int) returns (ghost handled: seq<Turn>)
      requires Ready() && ColonFree(queueName)
      modifies this, queue, store, clock, stats
      ensures Worked(stats) && Logged(handled)
      ensures stats.processed == old(stats.processed) + |handled|
      ensures old(stats.processed) >= maxMessagesPerIteration ==> handled == []
      ensures DrainOk(old(queue.Value()), queue.Value(), queueName, handled, tenantBurstLimit, ViewOf(frozen, stats))
    {
      handled := [];
      ghost var quota: nat := 0;
      RoundsStart(queue.Value(), queueName, tenantBurstLimit, ViewOf(frozen, stats));
      while stats.processed < maxMessagesPerIteration
        invariant Worked(stats) && Logged(handled)
        invariant stats.processed == old(stats.processed) + |handled|
        invariant old(stats.processed) >= maxMessagesPerIteration ==> handled == []
        invariant RoundsOk(old(queue.Value()), queue.Value(), queueName, handled, tenantBurstLimit, quota,
                           ViewOf(frozen, stats))
        decreases maxMessagesPerIteration - stats.processed
      {
        var tenants := queue.ListTenants(queueName);
        if tenants == [] {
          NoTenantsLeft(queue.Value(), queueName, frozen);
          break;
        }
        ghost var before, book, soFar, view := queue.Value(), Book(), handled, ViewOf(frozen, stats);
        ghost var round: seq<Turn>;
        var progressed;
        progressed, round := RunRound(queueName, tenants, stats, frozen);
        HistoryConcat(Around(), old(Book()), soFar, book, round, Book());
        RoundsStep(old(queue.Value()), before, queue.Value(), queueName, tenants, soFar, round, tenantBurstLimit, quota,
                   view, ViewOf(frozen, stats));
        handled, quota := soFar + round, quota + tenantBurstLimit;
        if !progressed {
          RoundsExhaust(before, queue.Value(), queueName, tenants, round, tenantBurstLimit, ViewOf(frozen, stats));
          break;
        }
      }
      RoundsAreDrained(old(queue.Value()), queue.Value(), queueName, handled, tenantBurstLimit, quota,
                       ViewOf(frozen, stats));
    }

    /** The outer loop over the queues. */
    method DrainAll(stats: WorkerRunStats, ghost frozen: int) returns (ghost handled: seq<Turn>)
      requires Ready() && forall q :: q in queueNames ==> ColonFree(q)
      modifies this, queue, store, clock, stats
      ensures Worked(stats) && Logged(handled) && stats.processed == old(stats.processed) + |handled|
      ensures DrainsOk(old(queue.Value()), queue.Value(), queueNames, handled, tenantBurstLimit, ViewOf(frozen, stats))
    {
      handled := [];
      ghost var done: seq<string> := [];
      WholePrefix(queueNames);
      for i := 0 to |queueNames|
        invariant Worked(stats) && Logged(handled) && stats.processed == old(stats.processed) + |handled|
        invariant done == queueNames[..i]
        invariant DrainsOk(old(queue.Value()), queue.Value(), done, handled, tenantBurstLimit, ViewOf(frozen, stats))
      {
        ghost var before, book, soFar, view := queue.Value(), Book(), handled, ViewOf(frozen, stats);
        ghost var own := DrainQueue(queueNames[i], stats, frozen);
        HistoryConcat(Around(), old(Book()), soFar, book, own, Book());
        DrainsStep(old(queue.Value()), before, queue.Value(), done, soFar, queueNames[i], own, tenantBurstLimit,
                   view, ViewOf(frozen, stats));
        handled, done := soFar + own, done + [queueNames[i]];
        PrefixGrows(queueNames, i);
      }
    }

    /**
     * One iteration of the worker over all its queues. `handled` is what it appended to the log: a history that leads
     * from the old pool to the new, one turn for each processed message.
     */
    method RunOnce(ghost frozen: int) returns (counts: Counts, ghost handled: seq<Turn>)
      requires Ready() && forall q :: q in queueNames ==> ColonFree(q)
      modifies this, queue, store, clock
      ensures Ready() && queue.inflight == old(queue.inflight)
      ensures Logged(handled) && served == old(served) + handled
      ensures counts.processed == |handled| <= maxMessagesPerIteration
      ensures counts.processed == counts.acked + counts.requeued && counts.retrying == counts.requeued
      ensures counts.succeeded + counts.retrying + counts.failed == store.calls - old(store.calls) <= counts.processed
      ensures store.verdicts[Fine] == old(store.verdicts[Fine]) + counts.succeeded
      ensures store.verdicts[Again] == old(store.verdicts[Again]) + counts.retrying
      ensures store.verdicts[Bad] == old(store.verdicts[Bad]) + counts.failed
      ensures |pool| == old(|pool|) - counts.acked
      ensures UnnamedKept(old(queue.Value()), queue.Value())
      ensures clock.FrozenAt(frozen) ==> AllFair(queue.Value(), queueNames, frozen, handled, tenantBurstLimit)
      ensures clock.FrozenAt(frozen) && counts.processed < maxMessagesPerIteration ==>
                AllExhausted(queue.Value(), queueNames, frozen)
    {
      var stats := new WorkerRunStats();
      label start:
      handled := DrainAll(stats, frozen);
      assert Accounted@start(stats, store);
      counts := stats.AsDict();
      HistoryIsLogged(Around(), old(Book()), handled, Book());
    }
  }
}
