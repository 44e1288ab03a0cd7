/** The in-memory queue backend: deques and an in-flight table changed in place, proved against QueueSpec. */
module InMemoryQueue {
  import opened Basics
  import opened QueueSpec

  /** Python's `key[len("bea:") : -len(suffix)]` after the two affix tests; "" when the affixes overlap. */
  function TenantOfKey(key: string, queue: string): Option<string> {
    var suffix := ":queue:" + queue;
    if !("bea:" <= key) || |key| < |suffix| || key[|key| - |suffix|..] != suffix then None
    else if |key| - |suffix| < 4 then Some("")
    else Some(key[4..|key| - |suffix|])
  }

  /** Parsing a key back gives a (non-empty) tenant exactly when the key is that tenant's key. */
  lemma TenantOfKeyInverts(key: string, queue: string, tenant: string)
    requires tenant != ""
    ensures TenantOfKey(key, queue) == Some(tenant) <==> key == QueueKey(tenant, queue)
  {
    var suffix := ":queue:" + queue;
    var full := QueueKey(tenant, queue);
    assert full == "bea:" + tenant + suffix;
    assert full[|full| - |suffix|..] == suffix && full[4..|full| - |suffix|] == tenant;
    if TenantOfKey(key, queue) == Some(tenant) {
      assert key == key[..4] + key[4..|key| - |suffix|] + key[|key| - |suffix|..];
    }
  }

  class InMemoryQueueBackend {
    var queues: map<string, seq<Message>>
    var inflight: map<string, Message>

    ghost function Value(): State
      reads this
    {
      State(queues, inflight)
    }

    constructor ()
      ensures Value() == EMPTY
    {
      queues, inflight := map[], map[];
    }

    method Enqueue(id: string, tenant: string, queueName: string, payload: Payload,
                   availableAt: Option<int>, now: int) returns (msg: Message)
      modifies this
      ensures msg == Message(id, tenant, queueName, payload, payload.attempt,
                             Some(if availableAt.Some? then availableAt.value else now))
      ensures Value() == QueueSpec.Enqueue(old(Value()), msg)
    {
      var key := QueueKey(tenant, queueName);
      msg := Message(id, tenant, queueName, payload, payload.attempt,
                     Some(if availableAt.Some? then availableAt.value else now));
      if key !in queues {
        queues := queues[key := []];
      }
      queues := queues[key := queues[key] + [msg]];
      assert queues == QueueSpec.Enqueue(old(Value()), msg).queues;
    }

    /** Scans at most one whole turn of the deque, moving each message that is not due to its end. */
    method Dequeue(tenant: string, queueName: string, now: int) returns (msg: Option<Message>)
      modifies this
      ensures (Value(), msg) == QueueSpec.Dequeue(old(Value()), tenant, queueName, now)
    {
      var key := QueueKey(tenant, queueName);
      if key !in queues {
        queues := queues[key := []];
      }
      ghost var d := queues[key];
      assert d == Deque(old(Value()), key);
      ghost var first := FirstAvailable(d, now);
      assert d[0..] + d[..0] == d;
      var size := |queues[key]|;
      var scanned := 0;
      while scanned < size
        invariant 0 <= scanned <= first && size == |d|
        invariant queues == old(queues)[key := d[scanned..] + d[..scanned]]
        invariant inflight == old(inflight)
      {
        var m := queues[key][0];
        assert m == d[scanned];
        var rest := queues[key][1..];
        assert rest == d[scanned + 1..] + d[..scanned];
        if Available(m, now) {
          assert first == scanned;
          queues := queues[key := rest];
          assert queues == old(queues)[key := rest];
          inflight := inflight[m.id := m];
          assert Value() == Taken(old(Value()), key, first);
          return Some(m);
        }
        queues := queues[key := rest + [m]];
        assert rest + [m] == d[scanned + 1..] + d[..scanned + 1];
        scanned := scanned + 1;
      }
      assert d[size..] + d[..size] == d;
      return None;
    }

    method Ack(tenant: string, id: string) returns (r: Result<(), Error>)
      modifies this
      ensures match QueueSpec.Ack(old(Value()), tenant, id)
              case Ok(s) => r == Ok(()) && Value() == s
              case Err(e) => r == Err(e) && Value() == old(Value())
    {
      if id !in inflight {
        return Ok(());
      }
      if inflight[id].tenant != tenant {
        return Err(TenantMismatch);
      }
      inflight := inflight - {id};
      return Ok(());
    }

    method Nack(tenant: string, id: string, requeue: bool, delayMs: int, now: int)
      returns (r: Result<Option<Message>, Error>)
      modifies this
      ensures match QueueSpec.Nack(old(Value()), tenant, id, requeue, delayMs, now)
              case Ok((s, m)) => r == Ok(m) && Value() == s
              case Err(e) => r == Err(e) && Value() == old(Value())
    {
      ghost var was := Value();
      if id !in inflight {
        return Ok(None);
      }
      var msg := inflight[id];
      inflight := inflight - {id};
      if msg.tenant != tenant {
        inflight := inflight[id := msg];
        assert inflight == old(inflight);
        return Err(TenantMismatch);
      }
      msg := msg.(attempt := msg.attempt + 1);
      if requeue {
        msg := msg.(availableAt := Some(now + Max(0, delayMs)));
        var key := QueueKey(msg.tenant, msg.queue);
        if key !in queues {
          queues := queues[key := []];
        }
        queues := queues[key := [msg] + queues[key]];
        assert queues == was.queues[key := [msg] + Deque(was, key)];
      }
      assert msg == Bumped(was.inflight[id], requeue, delayMs, now);
      assert QueueSpec.Nack(was, tenant, id, requeue, delayMs, now) == Ok((Value(), Some(msg)));
      return Ok(Some(msg));
    }

    /** The tenants with a non-empty deque under this queue name, sorted; the empty tenant is never listed. */
    method ListTenants(queueName: string) returns (tenants: seq<string>)
      ensures SortedStrings(tenants) && NoDuplicates(tenants)
      ensures forall t :: t in tenants <==> t != "" && Deque(Value(), QueueKey(t, queueName)) != []
    {
      var found: set<string> := {};
      var keys := queues.Keys;
      while keys != {}
        invariant keys <= queues.Keys
        invariant forall t :: t in found <==>
                    && t != ""
                    && QueueKey(t, queueName) in queues.Keys - keys
                    && queues[QueueKey(t, queueName)] != []
        decreases |keys|
      {
        var key :| key in keys;
        var tenant := TenantOfKey(key, queueName);
        forall t | t != "" ensures tenant == Some(t) <==> key == QueueKey(t, queueName) {
          TenantOfKeyInverts(key, queueName, t);
        }
        if queues[key] != [] && tenant.Some? && tenant.value != "" {
          found := found + {tenant.value};
        }
        keys := keys - {key};
      }
      tenants := Sorted(found);
    }
  }

  method Sorted(s: set<string>) returns (r: seq<string>)
    ensures SortedStrings(r) && NoDuplicates(r)
    ensures forall x :: x in r <==> x in s
  {
    r := [];
    var rest := s;
    while rest != {}
      invariant rest <= s && SortedStrings(r) && NoDuplicates(r)
      invariant forall x :: x in r <==> x in s - rest
      decreases |rest|
    {
      var x :| x in rest;
      InsertKeepsOrder(x, r);
      r := InsertString(x, r);
      rest := rest - {x};
    }
  }

  /** A dequeue comes back empty-handed exactly when no message of its deque is due. */
  lemma DequeueNoneIff(s: State, tenant: string, queue: string, now: int)
    ensures Dequeue(s, tenant, queue, now).1.None? <==>
              forall m :: m in Deque(s, QueueKey(tenant, queue)) ==> !Available(m, now)
  {
    var d := Deque(s, QueueKey(tenant, queue));
    var i := FirstAvailable(d, now);
    if i < |d| {
      assert d[i] in d;
    } else {
      forall m | m in d ensures !Available(m, now) {
        var j :| 0 <= j < |d| && d[j] == m;
      }
    }
  }

  /** With colon-free queue names, the deque of a key holds exactly its tenant's messages for that queue. */
  lemma DequeHoldsOwn(s: State, pool: Pool, tenant: string, queue: string)
    requires Refines(s, pool) && ColonFree(queue)
    requires forall id :: id in pool ==> ColonFree(pool[id].msg.queue)
    ensures forall m :: m in Deque(s, QueueKey(tenant, queue)) <==>
              m.id in pool && pool[m.id] == Pending(m) && m.tenant == tenant && m.queue == queue
  {
    var key := QueueKey(tenant, queue);
    var d := Deque(s, key);
    forall m ensures m in d <==> m.id in pool && pool[m.id] == Pending(m) && m.tenant == tenant && m.queue == queue {
      if m in d {
        assert key in s.queues && DequeOk(key, d, pool);
        var i :| 0 <= i < |d| && d[i] == m;
        assert Holds(pool, d[i]);
        QueueKeyInjective(m.tenant, m.queue, tenant, queue);
      }
      if m.id in pool && pool[m.id] == Pending(m) && m.tenant == tenant && m.queue == queue {
        assert Placed(s, m.id, pool[m.id]);
      }
    }
  }
}
