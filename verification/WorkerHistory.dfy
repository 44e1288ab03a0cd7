/** What a worker did, as a log that is tied to the queue: which messages it handled, for whom, and what it left. */
module WorkerHistory {
  import opened Basics
  import opened QueueSpec

  // ---- Counting the messages of a deque that are due ----

  function DueCount(d: seq<Message>, now: int): nat {
    if d == [] then 0 else (if Available(d[0], now) then 1 else 0) + DueCount(d[1..], now)
  }

  lemma {:induction false} DueCountConcat(a: seq<Message>, b: seq<Message>, now: int)
    ensures DueCount(a + b, now) == DueCount(a, now) + DueCount(b, now)
  {
    if a == [] {
      assert a + b == b;
    } else {
      assert (a + b)[1..] == a[1..] + b;
      DueCountConcat(a[1..], b, now);
    }
  }

  /** Taking the first due message and rotating past it leaves one due message fewer. */
  lemma DueCountTake(d: seq<Message>, now: int)
    ensures var i := FirstAvailable(d, now);
            if i == |d| then DueCount(d, now) == 0
            else DueCount(d, now) == 1 + DueCount(d[i + 1..] + d[..i], now)
  {
    var i := FirstAvailable(d, now);
    if i == |d| {
      NoneDue(d, now);
    } else {
      NoneDue(d[..i], now);
      DueCountConcat(d[..i], d[i..], now);
      DueCountConcat(d[i + 1..], d[..i], now);
      assert d == d[..i] + d[i..] && d[i..][1..] == d[i + 1..];
    }
  }

  lemma {:induction false} NoneDue(d: seq<Message>, now: int)
    requires forall j :: 0 <= j < |d| ==> !Available(d[j], now)
    ensures DueCount(d, now) == 0
  {
    if d != [] {
      NoneDue(d[1..], now);
    }
  }

  function Due(s: State, tenant: string, queue: string, now: int): nat {
    DueCount(Deque(s, QueueKey(tenant, queue)), now)
  }

  /** No deque holds more due messages than it did. */
  ghost predicate NeverMoreDue(s: State, s': State, now: int) {
    forall k :: DueCount(Deque(s', k), now) <= DueCount(Deque(s, k), now)
  }

  ghost predicate OnlyKeyTouched(s: State, s': State, key: string) {
    forall k :: k != key ==> Deque(s', k) == Deque(s, k)
  }

  // ---- The log of handled messages ----

  datatype RunResult = Raised | Retrying(retryAfterMs: int) | Succeeded | NeedsManualDecision | OtherStatus

  /** What the runs of jobs answer, by number, job and tenant, and what the clock reads, by number. */
  datatype World = World(outcome: (nat, string, string) -> RunResult, reading: nat -> int)

  /**
   * One handled message as it was taken, and as it was put back when its run asked for a retry; `call` numbers the run
   * and `tick` the reading of the clock that the delay counts from.
   */
  datatype Turn = Turn(msg: Message, back: Option<Message>, call: nat, tick: nat)

  /** The messages of the queue, the number of runs so far, and all messages handled so far. */
  datatype Ledger = Ledger(pool: Pool, calls: nat, served: seq<Turn>)

  /**
   * The message was pending. It is put back exactly when it has a job and its run, the next one, answers with a retry:
   * then it is the same message, one attempt older, and due the answered delay after a reading of the clock.
   */
  ghost predicate TurnOk(w: World, pool: Pool, calls: nat, turn: Turn) {
    && turn.msg.id in pool && pool[turn.msg.id] == Pending(turn.msg) && turn.call == calls
    && if turn.msg.payload.jobId == "" then turn.back.None?
       else
         match w.outcome(calls, turn.msg.payload.jobId, turn.msg.tenant)
         case Retrying(ms) => turn.back == Some(Later(turn.msg, w.reading(turn.tick), if ms < 0 then 0 else ms))
         case _ => turn.back.None?
  }

  function Later(m: Message, now: int, delay: nat): Message {
    m.(attempt := m.attempt + 1, availableAt := Some(now + delay))
  }

  ghost function Moved(pool: Pool, turn: Turn): Pool {
    if turn.back.None? then pool - {turn.msg.id} else pool[turn.msg.id := Pending(turn.back.value)]
  }

  ghost function Entered(a: Ledger, turn: Turn): Ledger {
    Ledger(Moved(a.pool, turn), a.calls + (if turn.msg.payload.jobId == "" then 0 else 1), a.served + [turn])
  }

  /** The turns are a possible history: one by one they are such turns and lead from one ledger to the other. */
  ghost predicate History(w: World, a: Ledger, turns: seq<Turn>, b: Ledger)
    decreases |turns|
  {
    if turns == [] then b == a
    else TurnOk(w, a.pool, a.calls, turns[0]) && History(w, Entered(a, turns[0]), turns[1..], b)
  }

  lemma {:induction false} HistoryConcat(w: World, a: Ledger, turns: seq<Turn>, b: Ledger, more: seq<Turn>, c: Ledger)
    requires History(w, a, turns, b) && History(w, b, more, c)
    ensures History(w, a, turns + more, c)
    decreases |turns|
  {
    if turns == [] {
      assert turns + more == more;
    } else {
      assert (turns + more)[0] == turns[0] && (turns + more)[1..] == turns[1..] + more;
      HistoryConcat(w, Entered(a, turns[0]), turns[1..], b, more, c);
    }
  }

  lemma OneTurn(w: World, a: Ledger, turn: Turn)
    requires TurnOk(w, a.pool, a.calls, turn)
    ensures History(w, a, [turn], Entered(a, turn))
  {
    assert [turn][1..] == [];
  }

  lemma TurnIsHistory(w: World, a: Ledger, turn: Turn, b: Ledger)
    requires TurnOk(w, a.pool, a.calls, turn) && b.pool == Moved(a.pool, turn) && b.served == a.served + [turn]
    requires b.calls == a.calls + if turn.msg.payload.jobId == "" then 0 else 1
    ensures History(w, a, [turn], b)
  {
    OneTurn(w, a, turn);
  }

  /** What a history appends to the log is its turns. */
  lemma {:induction false} HistoryIsLogged(w: World, a: Ledger, turns: seq<Turn>, b: Ledger)
    requires History(w, a, turns, b)
    ensures b.served == a.served + turns
    decreases |turns|
  {
    if turns != [] {
      HistoryIsLogged(w, Entered(a, turns[0]), turns[1..], b);
      assert a.served + [turns[0]] + turns[1..] == a.served + turns;
    }
  }

  /**
   * Every turn of a history was put back exactly when its run answered with a retry, due that run's delay after a
   * reading of the clock; and the runs are numbered on from the first.
   */
  lemma {:induction false} EachTurn(w: World, a: Ledger, turns: seq<Turn>, b: Ledger, i: nat)
    requires History(w, a, turns, b) && i < |turns|
    ensures var turn := turns[i];
            && a.calls <= turn.call <= b.calls
            && (turn.back.Some? <==>
                  && turn.msg.payload.jobId != ""
                  && w.outcome(turn.call, turn.msg.payload.jobId, turn.msg.tenant).Retrying?)
            && (turn.back.Some? ==>
                  && turn.call < b.calls && turn.back.value.id == turn.msg.id
                  && turn.back.value.attempt == turn.msg.attempt + 1
                  && var ms := w.outcome(turn.call, turn.msg.payload.jobId, turn.msg.tenant).retryAfterMs;
                     turn.back.value.availableAt == Some(w.reading(turn.tick) + Max(0, ms)))
    ensures b.calls >= a.calls
    decreases |turns|
  {
    if i > 0 {
      EachTurn(w, Entered(a, turns[0]), turns[1..], b, i - 1);
    } else {
      CallsGrow(w, Entered(a, turns[0]), turns[1..], b);
    }
  }

  lemma {:induction false} CallsGrow(w: World, a: Ledger, turns: seq<Turn>, b: Ledger)
    requires History(w, a, turns, b)
    ensures a.calls <= b.calls
    decreases |turns|
  {
    if turns != [] {
      CallsGrow(w, Entered(a, turns[0]), turns[1..], b);
    }
  }

  predicate IsOf(turn: Turn, queue: string, tenant: string) {
    turn.msg.queue == queue && turn.msg.tenant == tenant
  }

  /** How many of a tenant's messages of a queue were handled. */
  function Count(log: seq<Turn>, queue: string, tenant: string): nat
    decreases |log|
  {
    if log == [] then 0 else (if IsOf(log[0], queue, tenant) then 1 else 0) + Count(log[1..], queue, tenant)
  }

  lemma {:induction false} CountConcat(a: seq<Turn>, b: seq<Turn>, queue: string, tenant: string)
    ensures Count(a + b, queue, tenant) == Count(a, queue, tenant) + Count(b, queue, tenant)
    decreases |a|
  {
    if a == [] {
      assert a + b == b;
    } else {
      assert (a + b)[0] == a[0] && (a + b)[1..] == a[1..] + b;
      CountConcat(a[1..], b, queue, tenant);
    }
  }

  predicate AllOf(log: seq<Turn>, queue: string, tenant: string) {
    Count(log, queue, tenant) == |log|
  }

  lemma CountOne(turn: Turn, queue: string, tenant: string)
    requires IsOf(turn, queue, tenant)
    ensures AllOf([turn], queue, tenant)
  {
    assert [turn][1..] == [];
  }

  lemma {:induction false} CountAtMost(log: seq<Turn>, queue: string, tenant: string)
    ensures Count(log, queue, tenant) <= |log|
    decreases |log|
  {
    if log != [] {
      CountAtMost(log[1..], queue, tenant);
    }
  }

  lemma {:induction false} CountAllOf(log: seq<Turn>, queue: string, tenant: string, other: string)
    requires AllOf(log, queue, tenant)
    ensures Count(log, queue, other) == (if other == tenant then |log| else 0) && OfQueue(log, queue)
    decreases |log|
  {
    if log != [] {
      CountAtMost(log[1..], queue, tenant);
      CountAllOf(log[1..], queue, tenant, other);
    }
  }

  predicate OfQueue(log: seq<Turn>, queue: string)
    decreases |log|
  {
    log == [] || (log[0].msg.queue == queue && OfQueue(log[1..], queue))
  }

  /** All turns are of these queues. */
  predicate OfQueues(log: seq<Turn>, queues: seq<string>)
    decreases |log|
  {
    log == [] || (log[0].msg.queue in queues && OfQueues(log[1..], queues))
  }

  lemma {:induction false} OfQueueConcat(a: seq<Turn>, b: seq<Turn>, queue: string)
    requires OfQueue(a, queue) && OfQueue(b, queue)
    ensures OfQueue(a + b, queue)
    decreases |a|
  {
    if a == [] {
      assert a + b == b;
    } else {
      assert (a + b)[0] == a[0] && (a + b)[1..] == a[1..] + b;
      OfQueueConcat(a[1..], b, queue);
    }
  }

  lemma {:induction false} OfQueuesConcat(a: seq<Turn>, b: seq<Turn>, queues: seq<string>, queue: string)
    requires OfQueues(a, queues) && OfQueue(b, queue)
    ensures OfQueues(a + b, queues + [queue])
    decreases |a| + |b|
  {
    if a != [] {
      assert (a + b)[0] == a[0] && (a + b)[1..] == a[1..] + b;
      OfQueuesConcat(a[1..], b, queues, queue);
    } else if b != [] {
      assert a + b == b;
      OfQueuesConcat(a, b[1..], queues, queue);
      assert a + b[1..] == b[1..];
    }
  }

  lemma {:induction false} CountOtherQueue(log: seq<Turn>, queues: seq<string>, queue: string, tenant: string)
    requires OfQueues(log, queues) && queue !in queues
    ensures Count(log, queue, tenant) == 0
    decreases |log|
  {
    if log != [] {
      CountOtherQueue(log[1..], queues, queue, tenant);
    }
  }

  lemma OneQueue(log: seq<Turn>, queue: string)
    requires OfQueue(log, queue)
    ensures OfQueues(log, [queue])
  {
    OfQueuesConcat([], log, [], queue);
    assert [] + log == log && [] + [queue] == [queue];
  }

  // ---- What a run promises ----

  /** The deques of the unnamed tenant, which the worker never visits. */
  ghost predicate UnnamedKept(s: State, s': State) {
    forall q :: ColonFree(q) ==> Deque(s', QueueKey("", q)) == Deque(s, QueueKey("", q))
  }

  /** No tenant with a name has a due message left under this queue. */
  ghost predicate Exhausted(s: State, queue: string, now: int) {
    forall t :: t != "" ==> Due(s, t, queue, now) == 0
  }

  /** A tenant left with a due message had no more than the burst limit fewer messages handled than any other tenant. */
  ghost predicate Fair(s: State, queue: string, now: int, log: seq<Turn>, burst: nat) {
    forall t, u :: t != "" && Due(s, t, queue, now) > 0 ==> Count(log, queue, u) <= Count(log, queue, t) + burst
  }

  ghost predicate AllFair(s: State, queues: seq<string>, now: int, log: seq<Turn>, burst: nat) {
    forall q :: q in queues ==> Fair(s, q, now, log, burst)
  }

  ghost predicate AllExhausted(s: State, queues: seq<string>, now: int) {
    forall q :: q in queues ==> Exhausted(s, q, now)
  }

  /**
   * Later work never makes a message due and is logged under its own queue, so what held for the earlier queues still
   * holds; a queue that is named again finds nothing to do.
   */
  lemma StaysFair(s: State, s': State, queues: seq<string>, now: int, log: seq<Turn>, burst: nat,
                  queue: string, own: seq<Turn>)
    requires NeverMoreDue(s, s', now) && AllFair(s, queues, now, log, burst) && Fair(s', queue, now, own, burst)
    requires OfQueue(own, queue) && OfQueues(log, queues) && (queue in queues ==> own == [])
    ensures AllFair(s', queues + [queue], now, log + own, burst) && OfQueues(log + own, queues + [queue])
  {
    OfQueuesConcat(log, own, queues, queue);
    OneQueue(own, queue);
    forall q | q in queues + [queue] ensures Fair(s', q, now, log + own, burst) {
      if q in queues {
        FairStays(s, s', q, now, log, own, burst, queue);
      } else {
        forall t ensures Count(log + own, q, t) == Count(own, q, t) {
          CountConcat(log, own, q, t);
          CountOtherQueue(log, queues, q, t);
        }
      }
    }
  }

  lemma FairStays(s: State, s': State, queue: string, now: int, log: seq<Turn>, own: seq<Turn>, burst: nat,
                  other: string)
    requires NeverMoreDue(s, s', now) && Fair(s, queue, now, log, burst)
    requires OfQueues(own, [other]) && (other == queue ==> own == [])
    ensures Fair(s', queue, now, log + own, burst)
  {
    forall t
      ensures Count(log + own, queue, t) == Count(log, queue, t) && Due(s', t, queue, now) <= Due(s, t, queue, now) {
      CountConcat(log, own, queue, t);
      if other != queue {
        CountOtherQueue(own, [other], queue, t);
      }
    }
  }

  lemma StaysExhausted(s: State, s': State, queues: seq<string>, now: int, queue: string)
    requires NeverMoreDue(s, s', now) && AllExhausted(s, queues, now) && Exhausted(s', queue, now)
    ensures AllExhausted(s', queues + [queue], now)
  {
    forall q | q in queues ensures Exhausted(s', q, now) {
      assert Exhausted(s, q, now);
      assert forall t :: Due(s', t, q, now) <= Due(s, t, q, now);
    }
  }

  // ---- Bursts, rounds, and the loop over rounds ----

  /** What is known of the clock and the quota: whether time stands still at `now`, and whether messages may follow. */
  datatype View = View(frozen: bool, now: int, open: bool)

  /**
   * From s to s' one tenant was served `own`: only its deque moved, and it stopped early only for lack of due messages.
   */
  ghost predicate BurstOk(s: State, s': State, queue: string, tenant: string, own: seq<Turn>, burst: nat, v: View) {
    && AllOf(own, queue, tenant) && |own| <= burst && OnlyKeyTouched(s, s', QueueKey(tenant, queue))
    && (v.frozen ==> NeverMoreDue(s, s', v.now))
    && (v.frozen && Due(s, tenant, queue, v.now) == 0 ==> own == [])
    && (v.frozen && v.open && Due(s', tenant, queue, v.now) > 0 ==> |own| == burst)
  }

  /** From s to s' one tenant was served `own`, and nothing if nothing of it was due. */
  ghost predicate Bursting(s: State, s': State, queue: string, tenant: string, own: seq<Turn>, frozen: bool, now: int) {
    && AllOf(own, queue, tenant) && OnlyKeyTouched(s, s', QueueKey(tenant, queue))
    && (frozen ==> NeverMoreDue(s, s', now) && (Due(s, tenant, queue, now) == 0 ==> own == []))
  }

  lemma BurstingMore(s: State, s1: State, s2: State, queue: string, tenant: string, own: seq<Turn>, more: seq<Turn>,
                     frozen: bool, now: int)
    requires Bursting(s, s1, queue, tenant, own, frozen, now) && AllOf(more, queue, tenant)
    requires OnlyKeyTouched(s1, s2, QueueKey(tenant, queue))
    requires frozen ==> NeverMoreDue(s1, s2, now) && (more != [] ==> Due(s1, tenant, queue, now) > 0)
    ensures Bursting(s, s2, queue, tenant, own + more, frozen, now)
  {
    CountConcat(own, more, queue, tenant);
  }

  /** From s to s' each of the tenants `done` was served one burst. */
  ghost predicate RoundOk(s: State, s': State, queue: string, done: seq<string>, log: seq<Turn>, burst: nat, v: View) {
    && OfQueue(log, queue) && UnnamedKept(s, s')
    && (forall t :: Count(log, queue, t) <= if t in done then burst else 0)
    && (v.frozen ==> NeverMoreDue(s, s', v.now))
    && (v.frozen && Exhausted(s, queue, v.now) ==> log == [])
    && (v.frozen && v.open ==>
          forall t :: t in done && Due(s', t, queue, v.now) > 0 ==> Count(log, queue, t) == burst)
  }

  lemma RoundStart(s: State, queue: string, burst: nat, v: View)
    ensures RoundOk(s, s, queue, [], [], burst, v)
  {
  }

  lemma RoundStep(s: State, s1: State, s2: State, queue: string, done: seq<string>, tenant: string, log: seq<Turn>,
                  own: seq<Turn>, burst: nat, v1: View, v2: View)
    requires RoundOk(s, s1, queue, done, log, burst, v1) && BurstOk(s1, s2, queue, tenant, own, burst, v2)
    requires tenant !in done && tenant != "" && ColonFree(queue)
    requires v1.frozen == v2.frozen && v1.now == v2.now && (v2.open ==> v1.open)
    ensures RoundOk(s, s2, queue, done + [tenant], log + own, burst, v2)
  {
    OneTenantTouched(s1, s2, tenant, queue);
    CountAllOf(own, queue, tenant, "");
    OfQueueConcat(log, own, queue);
    forall t ensures Count(log + own, queue, t) == Count(log, queue, t) + (if t == tenant then |own| else 0) {
      CountConcat(log, own, queue, t);
      CountAllOf(own, queue, tenant, t);
    }
    if v2.frozen && Exhausted(s, queue, v2.now) {
      assert Due(s1, tenant, queue, v2.now) <= Due(s, tenant, queue, v2.now);
    }
    if v2.frozen && v2.open {
      forall t | t in done + [tenant] && Due(s2, t, queue, v2.now) > 0 ensures Count(log + own, queue, t) == burst {
        if t != tenant {
          assert Due(s2, t, queue, v2.now) == Due(s1, t, queue, v2.now);
        }
      }
    }
  }

  lemma OneTenantTouched(s: State, s': State, tenant: string, queue: string)
    requires OnlyKeyTouched(s, s', QueueKey(tenant, queue)) && tenant != "" && ColonFree(queue)
    ensures UnnamedKept(s, s')
    ensures forall t :: t != tenant ==> Deque(s', QueueKey(t, queue)) == Deque(s, QueueKey(t, queue))
  {
    forall q | ColonFree(q) ensures Deque(s', QueueKey("", q)) == Deque(s, QueueKey("", q)) {
      if QueueKey("", q) == QueueKey(tenant, queue) {
        QueueKeyInjective("", q, tenant, queue);
      }
    }
    forall t | t != tenant ensures Deque(s', QueueKey(t, queue)) == Deque(s, QueueKey(t, queue)) {
      if QueueKey(t, queue) == QueueKey(tenant, queue) {
        QueueKeyInjective(t, queue, tenant, queue);
      }
    }
  }

  /** From s to s' rounds were made, up to `quota` messages a tenant, and who still has due messages got them all. */
  ghost predicate RoundsOk(s: State, s': State, queue: string, log: seq<Turn>, burst: nat, quota: nat, v: View) {
    && OfQueue(log, queue) && UnnamedKept(s, s')
    && (forall t :: Count(log, queue, t) <= quota)
    && (v.frozen ==> NeverMoreDue(s, s', v.now))
    && (v.frozen && Exhausted(s, queue, v.now) ==> log == [])
    && (v.frozen ==> forall t :: t != "" && Due(s', t, queue, v.now) > 0 ==>
          quota <= Count(log, queue, t) + burst && (v.open ==> Count(log, queue, t) == quota))
  }

  lemma RoundsStart(s: State, queue: string, burst: nat, v: View)
    ensures RoundsOk(s, s, queue, [], burst, 0, v)
  {
  }

  /** One more round, over all tenants that have messages. */
  lemma RoundsStep(s: State, s1: State, s2: State, queue: string, tenants: seq<string>, log: seq<Turn>,
                   round: seq<Turn>,
                   burst: nat, quota: nat, v1: View, v2: View)
    requires RoundsOk(s, s1, queue, log, burst, quota, v1) && RoundOk(s1, s2, queue, tenants, round, burst, v2)
    requires forall t :: t in tenants <==> t != "" && Deque(s1, QueueKey(t, queue)) != []
    requires v1.frozen == v2.frozen && v1.now == v2.now && v1.open
    ensures RoundsOk(s, s2, queue, log + round, burst, quota + burst, v2)
  {
    OfQueueConcat(log, round, queue);
    forall t ensures Count(log + round, queue, t) == Count(log, queue, t) + Count(round, queue, t) {
      CountConcat(log, round, queue, t);
    }
    if v2.frozen {
      assert forall t :: Due(s2, t, queue, v2.now) <= Due(s1, t, queue, v2.now);
      if Exhausted(s, queue, v2.now) {
        assert forall t :: Due(s1, t, queue, v2.now) <= Due(s, t, queue, v2.now);
      }
    }
  }

  /** Whoever is left with due messages got the quota up to one burst, and nobody more than the quota. */
  lemma RoundsAreFair(s: State, s': State, queue: string, log: seq<Turn>, burst: nat, quota: nat, v: View)
    requires RoundsOk(s, s', queue, log, burst, quota, v) && v.frozen
    ensures Fair(s', queue, v.now, log, burst)
  {
  }

  /** When no tenant has messages, or a round moved none, nothing due is left. */
  lemma RoundsExhaust(s: State, s': State, queue: string, tenants: seq<string>, round: seq<Turn>, burst: nat, v: View)
    requires RoundOk(s, s', queue, tenants, round, burst, v) && round == [] && burst >= 1
    requires forall t :: t in tenants <==> t != "" && Deque(s, QueueKey(t, queue)) != []
    ensures v.frozen && v.open ==> Exhausted(s', queue, v.now)
  {
    assert v.frozen ==> forall t :: Due(s', t, queue, v.now) <= Due(s, t, queue, v.now);
  }

  /** From s to s' one queue was drained. */
  ghost predicate DrainOk(s: State, s': State, queue: string, log: seq<Turn>, burst: nat, v: View) {
    && OfQueue(log, queue) && UnnamedKept(s, s')
    && (v.frozen ==> NeverMoreDue(s, s', v.now) && Fair(s', queue, v.now, log, burst))
    && (v.frozen && Exhausted(s, queue, v.now) ==> log == [])
    && (v.frozen && v.open ==> Exhausted(s', queue, v.now))
  }

  lemma NoTenantsLeft(s: State, queue: string, now: int)
    requires forall t :: t != "" ==> Deque(s, QueueKey(t, queue)) == []
    ensures Exhausted(s, queue, now)
  {
  }

  lemma RoundsAreDrained(s: State, s': State, queue: string, log: seq<Turn>, burst: nat, quota: nat, v: View)
    requires RoundsOk(s, s', queue, log, burst, quota, v) && (v.frozen && v.open ==> Exhausted(s', queue, v.now))
    ensures DrainOk(s, s', queue, log, burst, v)
  {
    if v.frozen {
      RoundsAreFair(s, s', queue, log, burst, quota, v);
    }
  }

  /** From s to s' these queues were drained, one after the other. */
  ghost predicate DrainsOk(s: State, s': State, queues: seq<string>, log: seq<Turn>, burst: nat, v: View) {
    && OfQueues(log, queues) && UnnamedKept(s, s')
    && (v.frozen ==> AllFair(s', queues, v.now, log, burst))
    && (v.frozen && v.open ==> AllExhausted(s', queues, v.now))
  }

  lemma DrainsStep(s: State, s1: State, s2: State, queues: seq<string>, log: seq<Turn>, queue: string, own: seq<Turn>,
                   burst: nat, v1: View, v2: View)
    requires DrainsOk(s, s1, queues, log, burst, v1) && DrainOk(s1, s2, queue, own, burst, v2)
    requires v1.frozen == v2.frozen && v1.now == v2.now && (v2.open ==> v1.open) && (!v1.open ==> own == [])
    ensures DrainsOk(s, s2, queues + [queue], log + own, burst, v2)
  {
    OfQueuesConcat(log, own, queues, queue);
    if v2.frozen {
      assert queue in queues ==> own == [] by {
        if v1.open && queue in queues {
          assert Exhausted(s1, queue, v2.now);
        }
      }
      StaysFair(s1, s2, queues, v2.now, log, burst, queue, own);
      if v2.open {
        StaysExhausted(s1, s2, queues, v2.now, queue);
      }
    }
  }
}
