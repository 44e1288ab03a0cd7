/**
 * What the in-memory queue backend means: its deques and in-flight table as a value, one function per
 * operation, and the abstract pool (message id to place) that those operations refine.
 */
module QueueSpec {
  import opened Basics

  /** The payload fields the relay writes and the worker reads; a missing job id is "". */
  datatype Payload = Payload(jobId: string, eventId: string, consumer: string, attempt: int)

  /** `availableAt` is None when the stored time is missing or does not parse. */
  datatype Message = Message(id: string, tenant: string, queue: string, payload: Payload,
                             attempt: int, availableAt: Option<int>)

  datatype Error = TenantMismatch

  predicate Available(m: Message, now: int) {
    m.availableAt.None? || m.availableAt.value <= now
  }

  function QueueKey(tenant: string, queue: string): string {
    "bea:" + tenant + ":queue:" + queue
  }

  datatype State = State(queues: map<string, seq<Message>>, inflight: map<string, Message>)

  const EMPTY := State(map[], map[])

  function Deque(s: State, key: string): seq<Message> {
    if key in s.queues then s.queues[key] else []
  }

  // ---- The operations ----

  function FirstAvailable(d: seq<Message>, now: int): (i: nat)
    ensures i <= |d|
    ensures forall j :: 0 <= j < i ==> !Available(d[j], now)
    ensures i < |d| ==> Available(d[i], now)
  {
    if d == [] || Available(d[0], now) then 0 else 1 + FirstAvailable(d[1..], now)
  }

  function Enqueue(s: State, m: Message): State {
    var key := QueueKey(m.tenant, m.queue);
    s.(queues := s.queues[key := Deque(s, key) + [m]])
  }

  function Dequeue(s: State, tenant: string, queue: string, now: int): (State, Option<Message>) {
    var key := QueueKey(tenant, queue);
    var d := Deque(s, key);
    var i := FirstAvailable(d, now);
    if i == |d| then (s.(queues := s.queues[key := d]), None)
    else (Taken(s, key, i), Some(d[i]))
  }

  /** The state after the i-th message under `key` has been taken and the deque rotated past it. */
  function Taken(s: State, key: string, i: nat): State
    requires i < |Deque(s, key)|
  {
    var d := Deque(s, key);
    State(s.queues[key := d[i + 1..] + d[..i]], s.inflight[d[i].id := d[i]])
  }

  function Ack(s: State, tenant: string, id: string): Result<State, Error> {
    if id !in s.inflight then Ok(s)
    else if s.inflight[id].tenant != tenant then Err(TenantMismatch)
    else Ok(s.(inflight := s.inflight - {id}))
  }

  /** The message as nack writes it back. */
  function Bumped(m: Message, requeue: bool, delayMs: int, now: int): Message {
    m.(attempt := m.attempt + 1,
       availableAt := if requeue then Some(now + Max(0, delayMs)) else m.availableAt)
  }

  function Nack(s: State, tenant: string, id: string, requeue: bool, delayMs: int, now: int)
    : Result<(State, Option<Message>), Error>
  {
    if id !in s.inflight then Ok((s, None))
    else if s.inflight[id].tenant != tenant then Err(TenantMismatch)
    else
      var m := Bumped(s.inflight[id], requeue, delayMs, now);
      var key := QueueKey(m.tenant, m.queue);
      var queues := if requeue then s.queues[key := [m] + Deque(s, key)] else s.queues;
      Ok((State(queues, s.inflight - {id}), Some(m)))
  }

  // ---- The abstract pool ----

  datatype Slot = Pending(msg: Message) | InFlight(msg: Message)

  type Pool = map<string, Slot>

  /** One deque: every message is pending in the pool, belongs under this key, and occurs once. */
  ghost predicate DequeOk(key: string, d: seq<Message>, pool: Pool) {
    && (forall i :: 0 <= i < |d| ==> Holds(pool, d[i]) && key == QueueKey(d[i].tenant, d[i].queue))
    && (forall i, j :: 0 <= i < j < |d| ==> d[i].id != d[j].id)
  }

  ghost predicate Holds(pool: Pool, m: Message) {
    m.id in pool && pool[m.id] == Pending(m)
  }

  /** A pool entry sits where its slot says: in its own deque, or in the in-flight table. */
  ghost predicate Placed(s: State, id: string, slot: Slot) {
    && slot.msg.id == id
    && (slot.Pending? ==> slot.msg in Deque(s, QueueKey(slot.msg.tenant, slot.msg.queue)))
    && (slot.InFlight? ==> id in s.inflight)
  }

  /** The deques and the in-flight table hold exactly the pool's messages, each in one place, once. */
  ghost predicate Refines(s: State, pool: Pool) {
    && (forall k :: k in s.queues ==> DequeOk(k, s.queues[k], pool))
    && (forall id :: id in s.inflight ==> id in pool && pool[id] == InFlight(s.inflight[id]))
    && (forall id :: id in pool ==> Placed(s, id, pool[id]))
  }

  lemma EnqueueRefines(s: State, pool: Pool, m: Message)
    requires Refines(s, pool) && m.id !in pool
    ensures Refines(Enqueue(s, m), pool[m.id := Pending(m)])
  {
    var s', pool' := Enqueue(s, m), pool[m.id := Pending(m)];
    var key := QueueKey(m.tenant, m.queue);
    assert s'.queues[key] == Deque(s, key) + [m];
    assert s'.queues[key][|Deque(s, key)|] == m;
    forall k | k in s'.queues ensures DequeOk(k, s'.queues[k], pool') {
      assert k in s.queues ==> DequeOk(k, s.queues[k], pool);
      forall i | 0 <= i < |Deque(s, k)| ensures Holds(pool', Deque(s, k)[i]) && Deque(s, k)[i].id != m.id {
        assert Holds(pool, Deque(s, k)[i]);
      }
    }
    forall id | id in pool' ensures Placed(s', id, pool'[id]) {
      assert id in pool ==> Placed(s, id, pool[id]);
    }
  }

  lemma DequeueRefines(s: State, pool: Pool, tenant: string, queue: string, now: int)
    requires Refines(s, pool)
    ensures var (s', got) := Dequeue(s, tenant, queue, now);
            match got
            case None => Refines(s', pool)
            case Some(m) => Holds(pool, m) && Refines(s', pool[m.id := InFlight(m)])
  {
    var key := QueueKey(tenant, queue);
    var d := Deque(s, key);
    var i := FirstAvailable(d, now);
    if i < |d| {
      TakeKeepsDeques(s, pool, key, i);
      TakeKeepsPlaces(s, pool, key, i);
      assert DequeOk(key, d, pool);
      assert Holds(pool, d[i]);
      assert Refines(Taken(s, key, i), pool[d[i].id := InFlight(d[i])]);
    } else {
      TouchRefines(s, pool, key);
    }
  }

  /** Looking a key up creates its empty deque and changes nothing else. */
  lemma TouchRefines(s: State, pool: Pool, key: string)
    requires Refines(s, pool)
    ensures Refines(s.(queues := s.queues[key := Deque(s, key)]), pool)
  {
    var s' := s.(queues := s.queues[key := Deque(s, key)]);
    forall id | id in pool ensures Placed(s', id, pool[id]) {
      assert Placed(s, id, pool[id]);
    }
  }

  lemma TakeKeepsDeques(s: State, pool: Pool, key: string, i: nat)
    requires Refines(s, pool) && i < |Deque(s, key)|
    ensures var s', m := Taken(s, key, i), Deque(s, key)[i];
            forall k :: k in s'.queues ==> DequeOk(k, s'.queues[k], pool[m.id := InFlight(m)])
  {
    var s', d := Taken(s, key, i), Deque(s, key);
    assert DequeOk(key, d, pool);
    RotationOk(key, d, i, pool);
    forall k | k in s'.queues && k != key ensures DequeOk(k, s'.queues[k], pool[d[i].id := InFlight(d[i])]) {
      OtherDequeKeeps(k, s.queues[k], pool, d[i]);
    }
  }

  lemma TakeKeepsPlaces(s: State, pool: Pool, key: string, i: nat)
    requires Refines(s, pool) && i < |Deque(s, key)|
    ensures var s', m := Taken(s, key, i), Deque(s, key)[i];
            var pool' := pool[m.id := InFlight(m)];
            forall id :: id in pool' ==> Placed(s', id, pool'[id])
  {
    var s', d := Taken(s, key, i), Deque(s, key);
    assert DequeOk(key, d, pool);
    RotationOk(key, d, i, pool);
    forall id | id in pool && id != d[i].id ensures Placed(s', id, pool[id]) {
      assert Placed(s, id, pool[id]);
    }
  }

  lemma OtherDequeKeeps(k: string, d: seq<Message>, pool: Pool, m: Message)
    requires DequeOk(k, d, pool) && Holds(pool, m) && k != QueueKey(m.tenant, m.queue)
    ensures DequeOk(k, d, pool[m.id := InFlight(m)])
    ensures DequeOk(k, d, pool - {m.id})
  {
    forall i | 0 <= i < |d| ensures d[i].id != m.id {
      assert Holds(pool, d[i]);
    }
  }

  /** Taking one message out of a deque and rotating the rest keeps the deque in order with the pool. */
  lemma RotationOk(key: string, d: seq<Message>, i: nat, pool: Pool)
    requires i < |d| && DequeOk(key, d, pool)
    ensures var rest := d[i + 1..] + d[..i];
            && DequeOk(key, rest, pool[d[i].id := InFlight(d[i])])
            && forall m :: m in d && m != d[i] ==> m in rest
  {
    var rest, n := d[i + 1..] + d[..i], |d| - i - 1;
    forall a | 0 <= a < |rest| ensures rest[a] == d[if a < n then a + i + 1 else a - n] {
    }
    forall a | 0 <= a < |rest|
      ensures Holds(pool, rest[a]) && rest[a].id != d[i].id && key == QueueKey(rest[a].tenant, rest[a].queue) {
      var x := if a < n then a + i + 1 else a - n;
      assert Holds(pool, d[x]);
    }
    RotationDistinct(d, i);
    forall m | m in d && m != d[i] ensures m in rest {
      var j :| 0 <= j < |d| && d[j] == m;
      assert rest[if j < i then n + j else j - i - 1] == m;
    }
  }

  lemma RotationDistinct(d: seq<Message>, i: nat)
    requires i < |d| && forall a, b :: 0 <= a < b < |d| ==> d[a].id != d[b].id
    ensures var rest := d[i + 1..] + d[..i];
            forall a, b :: 0 <= a < b < |rest| ==> rest[a].id != rest[b].id
  {
    var rest := d[i + 1..] + d[..i];
    var n := |d| - i - 1;
    forall a, b | 0 <= a < b < |rest| ensures rest[a].id != rest[b].id {
      var x := if a < n then a + i + 1 else a - n;
      var y := if b < n then b + i + 1 else b - n;
      assert rest[a] == d[x] && rest[b] == d[y] && x != y;
      assert x < y || y < x;
    }
  }

  /** An in-flight message put back at the head of its deque is pending in the pool. */
  lemma PutBackRefines(s: State, pool: Pool, id: string, m: Message)
    requires Refines(s, pool) && id in s.inflight && m.id == id
    ensures var key := QueueKey(m.tenant, m.queue);
            Refines(State(s.queues[key := [m] + Deque(s, key)], s.inflight - {id}), pool[id := Pending(m)])
  {
    var key := QueueKey(m.tenant, m.queue);
    var d, pool' := Deque(s, key), pool[id := Pending(m)];
    var s' := State(s.queues[key := [m] + d], s.inflight - {id});
    assert Placed(s, id, pool[id]);
    forall k | k in s'.queues ensures DequeOk(k, s'.queues[k], pool') {
      assert k in s.queues ==> DequeOk(k, s.queues[k], pool);
      InFlightElsewhere(k, Deque(s, k), pool, id, pool');
    }
    forall x | x in pool' ensures Placed(s', x, pool'[x]) {
      assert x in pool && Placed(s, x, pool[x]);
      assert s'.queues[key] == [m] + d && s'.queues[key][0] == m;
      assert forall y :: y in d ==> y in s'.queues[key];
    }
  }

  /** A message that leaves the in-flight table leaves the pool. */
  lemma DropRefines(s: State, pool: Pool, id: string)
    requires Refines(s, pool) && id in s.inflight
    ensures Refines(State(s.queues, s.inflight - {id}), pool - {id})
  {
    var s', pool' := State(s.queues, s.inflight - {id}), pool - {id};
    assert Placed(s, id, pool[id]);
    forall k | k in s.queues ensures DequeOk(k, s.queues[k], pool') {
      InFlightElsewhere(k, s.queues[k], pool, id, pool');
    }
    forall x | x in pool' ensures Placed(s', x, pool'[x]) {
      assert Placed(s, x, pool[x]);
    }
  }

  lemma AckRefines(s: State, pool: Pool, tenant: string, id: string)
    requires Refines(s, pool)
    ensures match Ack(s, tenant, id)
            case Ok(s') => Refines(s', if id in s.inflight then pool - {id} else pool)
            case Err(_) => true
  {
    if HitsInFlight(s, tenant, id) {
      DropRefines(s, pool, id);
    }
  }

  lemma InFlightHasId(s: State, pool: Pool, id: string)
    requires Refines(s, pool) && id in s.inflight
    ensures id in pool && s.inflight[id].id == id
  {
  }

  lemma NackRefines(s: State, pool: Pool, tenant: string, id: string, requeue: bool, delayMs: int, now: int)
    requires Refines(s, pool)
    ensures match Nack(s, tenant, id, requeue, delayMs, now)
            case Ok((s', Some(m))) => Refines(s', if requeue then pool[id := Pending(m)] else pool - {id})
            case Ok((s', None)) => s' == s
            case Err(_) => true
  {
    if HitsInFlight(s, tenant, id) {
      InFlightHasId(s, pool, id);
      if requeue {
        PutBackRefines(s, pool, id, Bumped(s.inflight[id], requeue, delayMs, now));
      } else {
        DropRefines(s, pool, id);
      }
    }
  }

  lemma InFlightElsewhere(k: string, d: seq<Message>, pool: Pool, id: string, pool': Pool)
    requires DequeOk(k, d, pool) && id in pool && pool[id].InFlight?
    requires forall x :: x in pool && x != id ==> x in pool' && pool'[x] == pool[x]
    ensures DequeOk(k, d, pool') && forall j :: 0 <= j < |d| ==> d[j].id != id
  {
    forall j | 0 <= j < |d| ensures d[j].id != id && Holds(pool', d[j]) {
      assert Holds(pool, d[j]);
    }
  }

  // ---- Whole runs ----

  datatype Op =
    | EnqueueOp(msg: Message)
    | DequeueOp(tenant: string, queue: string, now: int)
    | AckOp(tenant: string, id: string)
    | NackOp(tenant: string, id: string, requeue: bool, delayMs: int, now: int)

  /** A refused call leaves the queue as it was. */
  function Apply(s: State, op: Op): State {
    match op
    case EnqueueOp(m) => Enqueue(s, m)
    case DequeueOp(t, q, now) => Dequeue(s, t, q, now).0
    case AckOp(t, id) => (match Ack(s, t, id) case Ok(s') => s' case Err(_) => s)
    case NackOp(t, id, rq, ms, now) => (match Nack(s, t, id, rq, ms, now) case Ok(r) => r.0 case Err(_) => s)
  }

  ghost predicate HitsInFlight(s: State, tenant: string, id: string) {
    id in s.inflight && s.inflight[id].tenant == tenant
  }

  /** The pool's own step: it names which message moves and where, and says nothing of order. */
  ghost function ApplyPool(s: State, pool: Pool, op: Op): Pool {
    match op
    case EnqueueOp(m) => pool[m.id := Pending(m)]
    case DequeueOp(t, q, now) =>
      (match Dequeue(s, t, q, now).1
       case None => pool
       case Some(m) => pool[m.id := InFlight(m)])
    case AckOp(t, id) => if HitsInFlight(s, t, id) then pool - {id} else pool
    case NackOp(t, id, rq, ms, now) =>
      if !HitsInFlight(s, t, id) then pool
      else if rq then pool[id := Pending(Bumped(s.inflight[id], rq, ms, now))]
      else pool - {id}
  }

  function Run(s: State, ops: seq<Op>): State
    decreases |ops|
  {
    if ops == [] then s else Run(Apply(s, ops[0]), ops[1..])
  }

  ghost function RunPool(s: State, pool: Pool, ops: seq<Op>): Pool
    decreases |ops|
  {
    if ops == [] then pool else RunPool(Apply(s, ops[0]), ApplyPool(s, pool, ops[0]), ops[1..])
  }

  /** Message ids are drawn fresh: an enqueue never reuses the id of a live message. */
  ghost predicate FreshIds(s: State, pool: Pool, ops: seq<Op>)
    decreases |ops|
  {
    ops != [] ==>
      && (ops[0].EnqueueOp? ==> ops[0].msg.id !in pool)
      && FreshIds(Apply(s, ops[0]), ApplyPool(s, pool, ops[0]), ops[1..])
  }

  lemma StepRefines(s: State, pool: Pool, op: Op)
    requires Refines(s, pool)
    requires op.EnqueueOp? ==> op.msg.id !in pool
    ensures Refines(Apply(s, op), ApplyPool(s, pool, op))
  {
    match op
    case EnqueueOp(m) => EnqueueRefines(s, pool, m);
    case DequeueOp(t, q, now) => DequeueRefines(s, pool, t, q, now);
    case AckOp(t, id) => AckRefines(s, pool, t, id);
    case NackOp(t, id, rq, ms, now) => NackRefines(s, pool, t, id, rq, ms, now);
  }

  /** After any run, every live message is in its own deque once or in flight, never both. */
  lemma {:induction false} RunRefines(s: State, pool: Pool, ops: seq<Op>)
    requires Refines(s, pool) && FreshIds(s, pool, ops)
    ensures Refines(Run(s, ops), RunPool(s, pool, ops))
    decreases |ops|
  {
    if ops != [] {
      StepRefines(s, pool, ops[0]);
      RunRefines(Apply(s, ops[0]), ApplyPool(s, pool, ops[0]), ops[1..]);
    }
  }

  /** How many nacks of a run reached the message while it was in flight, under its own tenant. */
  ghost function NacksOf(s: State, ops: seq<Op>, id: string): nat
    decreases |ops|
  {
    if ops == [] then 0
    else
      var hit := ops[0].NackOp? && ops[0].id == id && HitsInFlight(s, ops[0].tenant, id);
      (if hit then 1 else 0) + NacksOf(Apply(s, ops[0]), ops[1..], id)
  }

  /** A message alive after a run was alive before it, and its `attempt` grew by exactly its nacks. */
  lemma {:induction false} AttemptCountsNacks(s: State, pool: Pool, ops: seq<Op>, id: string)
    requires Refines(s, pool) && FreshIds(s, pool, ops)
    requires forall i :: 0 <= i < |ops| && ops[i].EnqueueOp? ==> ops[i].msg.id != id
    requires id in RunPool(s, pool, ops)
    ensures id in pool
    ensures RunPool(s, pool, ops)[id].msg.attempt == pool[id].msg.attempt + NacksOf(s, ops, id)
    decreases |ops|
  {
    if ops != [] {
      var s', pool' := Apply(s, ops[0]), ApplyPool(s, pool, ops[0]);
      StepRefines(s, pool, ops[0]);
      assert forall i :: 0 <= i < |ops[1..]| ==> ops[1..][i] == ops[i + 1];
      AttemptCountsNacks(s', pool', ops[1..], id);
      if ops[0].DequeueOp? {
        DequeueRefines(s, pool, ops[0].tenant, ops[0].queue, ops[0].now);
      }
    }
  }

  // ---- Queue keys ----

  predicate ColonFree(name: string) {
    ':' !in name
  }

  /** With colon-free queue names the key names one tenant and one queue. */
  lemma QueueKeyInjective(t1: string, q1: string, t2: string, q2: string)
    requires ColonFree(q1) && ColonFree(q2)
    requires QueueKey(t1, q1) == QueueKey(t2, q2)
    ensures t1 == t2 && q1 == q2
  {
    var k := QueueKey(t1, q1);
    assert k == ("bea:" + t1 + ":queue") + ":" + q1;
    assert k == ("bea:" + t2 + ":queue") + ":" + q2;
    LastColon(k, |k| - |q1| - 1, |k| - |q2| - 1);
    LastColon(k, |k| - |q2| - 1, |k| - |q1| - 1);
    assert k[4..|k| - |q1| - 7] == t1 && k[4..|k| - |q2| - 7] == t2;
    assert k[|k| - |q1|..] == q1 && k[|k| - |q2|..] == q2;
  }

  lemma LastColon(k: string, n: nat, m: nat)
    requires n < |k| && m < |k| && k[m] == ':' && ColonFree(k[n + 1..])
    ensures m <= n
  {
    assert forall i :: n < i < |k| ==> k[i] == k[n + 1..][i - n - 1];
  }

  /** With a colon in the queue name two different tenants can share one deque. */
  lemma QueueKeyCollision()
    ensures QueueKey("a", "b:queue:c") == QueueKey("a:queue:b", "c")
  {
    assert "bea:" + "a" + ":queue:" + "b:queue:c" == "bea:a:queue:b:queue:c";
    assert "bea:" + "a:queue:b" + ":queue:" + "c" == "bea:a:queue:b:queue:c";
  }
}
