/** In which order the in-memory queue hands out messages, and when a message that was put back comes again. */
module QueueOrder {
  import opened Basics
  import opened QueueSpec

  /** What up to n dequeues in a row hand out, all at the same time. */
  function Handed(s: State, tenant: string, queue: string, now: int, n: nat): seq<Message>
    decreases n
  {
    if n == 0 then []
    else
      match Dequeue(s, tenant, queue, now)
      case (_, None) => []
      case (s', Some(m)) => [m] + Handed(s', tenant, queue, now, n - 1)
  }

  /** The messages of a deque whose time has come, in order; one without a time is always due. */
  function DueOnes(d: seq<Message>, now: int): seq<Message> {
    if d == [] then []
    else
      (match d[0].availableAt
       case None => [d[0]]
       case Some(t) => if now < t then [] else [d[0]]) + DueOnes(d[1..], now)
  }

  lemma {:induction false} DueOnesConcat(a: seq<Message>, b: seq<Message>, now: int)
    ensures DueOnes(a + b, now) == DueOnes(a, now) + DueOnes(b, now)
  {
    if a == [] {
      assert a + b == b;
    } else {
      assert (a + b)[0] == a[0] && (a + b)[1..] == a[1..] + b;
      DueOnesConcat(a[1..], b, now);
    }
  }

  lemma {:induction false} NoneDueBefore(d: seq<Message>, now: int)
    requires forall i :: 0 <= i < |d| ==> !Available(d[i], now)
    ensures DueOnes(d, now) == []
  {
    if d != [] {
      NoneDueBefore(d[1..], now);
    }
  }

  /** The first due message is the first available one. */
  lemma FirstDueOne(d: seq<Message>, now: int)
    ensures var i := FirstAvailable(d, now);
            if i == |d| then DueOnes(d, now) == []
            else DueOnes(d, now) == [d[i]] + DueOnes(d[i + 1..] + d[..i], now)
  {
    var i := FirstAvailable(d, now);
    NoneDueBefore(d[..i], now);
    if i == |d| {
      assert d[..i] == d;
    } else {
      assert d == d[..i] + ([d[i]] + d[i + 1..]);
      DueOnesConcat(d[..i], [d[i]] + d[i + 1..], now);
      assert ([d[i]] + d[i + 1..])[1..] == d[i + 1..];
      DueOnesConcat(d[i + 1..], d[..i], now);
    }
  }

  /** At one time, dequeues hand out exactly the due messages of a deque, in its order, whatever they pass over. */
  lemma {:induction false} HandsOutInOrder(s: State, tenant: string, queue: string, now: int, n: nat)
    requires n >= |DueOnes(Deque(s, QueueKey(tenant, queue)), now)|
    ensures Handed(s, tenant, queue, now, n) == DueOnes(Deque(s, QueueKey(tenant, queue)), now)
    decreases n
  {
    var key := QueueKey(tenant, queue);
    var d := Deque(s, key);
    var i := FirstAvailable(d, now);
    FirstDueOne(d, now);
    if n > 0 && i < |d| {
      assert Deque(Taken(s, key, i), key) == d[i + 1..] + d[..i];
      HandsOutInOrder(Taken(s, key, i), tenant, queue, now, n - 1);
    }
  }

  function EnqueuedAll(s: State, ms: seq<Message>): State {
    if ms == [] then s else Enqueue(EnqueuedAll(s, ms[..|ms| - 1]), ms[|ms| - 1])
  }

  /** First in, first out: due messages enqueued to an empty deque come out in the order in which they went in. */
  lemma FirstInFirstOut(s: State, ms: seq<Message>, tenant: string, queue: string, now: int)
    requires Deque(s, QueueKey(tenant, queue)) == []
    requires forall i :: 0 <= i < |ms| ==>
               && ms[i].tenant == tenant && ms[i].queue == queue
               && (ms[i].availableAt.Some? ==> ms[i].availableAt.value <= now)
    ensures Handed(EnqueuedAll(s, ms), tenant, queue, now, |ms|) == ms
  {
    EnqueuedInOrder(s, ms, tenant, queue);
    AllDue(ms, now);
    assert [] + ms == ms;
    HandsOutInOrder(EnqueuedAll(s, ms), tenant, queue, now, |ms|);
  }

  lemma {:induction false} EnqueuedInOrder(s: State, ms: seq<Message>, tenant: string, queue: string)
    requires forall i :: 0 <= i < |ms| ==> ms[i].tenant == tenant && ms[i].queue == queue
    ensures var key := QueueKey(tenant, queue); Deque(EnqueuedAll(s, ms), key) == Deque(s, key) + ms
  {
    if ms != [] {
      EnqueuedInOrder(s, ms[..|ms| - 1], tenant, queue);
      assert ms == ms[..|ms| - 1] + [ms[|ms| - 1]];
    }
  }

  lemma {:induction false} AllDue(ms: seq<Message>, now: int)
    requires forall i :: 0 <= i < |ms| ==> ms[i].availableAt.Some? ==> ms[i].availableAt.value <= now
    ensures DueOnes(ms, now) == ms
  {
    if ms != [] {
      AllDue(ms[1..], now);
      assert ms == [ms[0]] + ms[1..];
    }
  }

  /**
   * A message put back with a delay comes before all others from the moment the delay is over, one attempt older; until
   * then its queue hands out what it would have handed out without it.
   */
  lemma PutBackComesFirst(s: State, id: string, delayMs: int, at: int, now: int)
    requires id in s.inflight && s.inflight[id].id == id
    ensures var m := s.inflight[id];
            var after := Nack(s, m.tenant, id, true, delayMs, at);
            var due := at + if delayMs > 0 then delayMs else 0;
            && after.Ok? && id !in after.value.0.inflight
            && var next := Dequeue(after.value.0, m.tenant, m.queue, now).1;
               if now >= due then next == Some(m.(attempt := m.attempt + 1, availableAt := Some(due)))
               else next == Dequeue(s, m.tenant, m.queue, now).1
  {
    var m := s.inflight[id];
    var m', key := Bumped(m, true, delayMs, at), QueueKey(m.tenant, m.queue);
    var d := Deque(s, key);
    assert ([m'] + d)[1..] == d;
  }

  /** A message dropped by a nack is in no place any more; its queue is as it was. */
  lemma DroppedIsGone(s: State, id: string, delayMs: int, at: int)
    requires id in s.inflight && s.inflight[id].id == id
    ensures var after := Nack(s, s.inflight[id].tenant, id, false, delayMs, at);
            after.Ok? && after.value.0.queues == s.queues && after.value.0.inflight == s.inflight - {id}
            && after.value.1.Some? && after.value.1.value.attempt == s.inflight[id].attempt + 1
  {
  }
}
