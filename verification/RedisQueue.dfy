/**
 * The Redis queue backend at the granularity of single Redis commands: any number of processes interleave the
 * commands of enqueue, dequeue, ack and nack on shared lists, sets and keys.
 */
module RedisQueue {
  import opened Basics

  datatype Status = Pending | InFlight | Discarded

  /** The stored message record, and the index entry that names its queue. */
  datatype Data = Data(tenant: string, queue: string, attempt: int, availableAt: int, status: Status)

  type Owner = (string, string)

  /** The common part of the pending and in-flight key of a queue. */
  function Key(o: Owner): string {
    "bea:" + o.0 + ":queue:" + o.1
  }

  /** The command a process will issue next; the fields are its local variables. */
  datatype Pc =
    | Idle
    | SetIndex(id: string, data: Data) | SetNew(id: string, data: Data) | PushNew(id: string, data: Data)
    | ReadLength(own: Owner) | Pop(own: Owner, left: nat) | Load(own: Owner, left: nat, id: string)
    | PushBack(own: Owner, left: nat, id: string) | MarkInFlight(own: Owner, id: string, data: Data)
    | AddInFlight(own: Owner, id: string)
    | AckIndex(tenant: string, id: string) | AckLoad(own: Owner, id: string) | AckRemove(own: Owner, id: string)
    | AckDelete(id: string) | AckUnindex(id: string)
    | NackIndex(tenant: string, id: string, requeue: bool, delayMs: int)
    | NackLoad(own: Owner, id: string, requeue: bool, delayMs: int)
    | NackSave(own: Owner, id: string, data: Data) | NackRemove(own: Owner, id: string, requeue: bool)
    | NackPush(own: Owner, id: string)

  /** `held` are the messages a dequeue of this process returned and it has not yet settled. */
  datatype Process = Process(held: set<string>, pc: Pc)

  /** What is stored about an id: its index entry, its record's status, its membership of the in-flight set. */
  datatype Shape = Shape(indexed: bool, status: Option<Status>, inflight: bool)

  /** Where an id is: in its pending list, in the hands of a process, or finally put away. */
  datatype Place = Listed | Owned(p: nat, shape: Shape) | Lost(shape: Shape) | Dropped | Gone

  const FRESH := Shape(false, None, false)
  const NAMED := Shape(true, None, false)
  const STORED := Shape(true, Some(Pending), false)
  const MARKED := Shape(true, Some(InFlight), false)
  const HELD := Shape(true, Some(InFlight), true)
  const REVERTED := Shape(true, Some(Pending), true)
  const DROPPING := Shape(true, Some(Discarded), true)
  const DROPPED := Shape(true, Some(Discarded), false)

  /** The shared Redis data, the processes, and `place`, a record of where every id ever drawn is. */
  datatype System = System(pending: map<string, seq<string>>, inflight: map<string, set<string>>,
                           msgs: map<string, Data>, index: map<string, Owner>,
                           procs: seq<Process>, place: map<string, Place>)

  function Init(n: nat): System {
    System(map[], map[], map[], map[], seq(n, _ => Process({}, Idle)), map[])
  }

  function List(pending: map<string, seq<string>>, key: string): seq<string> {
    if key in pending then pending[key] else []
  }

  function InSet(inflight: map<string, set<string>>, key: string): set<string> {
    if key in inflight then inflight[key] else {}
  }

  function Less(n: nat): nat {
    if n == 0 then 0 else n - 1
  }

  // ---- One command ----

  function Goto(s: System, p: nat, pc: Pc): System
    requires p < |s.procs|
  {
    s.(procs := s.procs[p := s.procs[p].(pc := pc)])
  }

  /** The process finishes with the message: it is no longer held. */
  function Release(s: System, p: nat, id: string): System
    requires p < |s.procs|
  {
    s.(procs := s.procs[p := Process(s.procs[p].held - {id}, Idle)])
  }

  function Move(s: System, id: string, place: Place): System {
    s.(place := s.place[id := place])
  }

  /** Ack and nack read an index entry with an empty tenant or queue name as no entry. */
  predicate Indexed(s: System, id: string) {
    id in s.index && s.index[id].0 != "" && s.index[id].1 != ""
  }

  function Command(s: System, p: nat, now: int): System
    requires p < |s.procs|
  {
    match s.procs[p].pc
    case Idle => s
    // enqueue: SET index, SET message, RPUSH
    case SetIndex(id, d) =>
      Move(Goto(s, p, SetNew(id, d)), id, Owned(p, NAMED)).(index := s.index[id := (d.tenant, d.queue)])
    case SetNew(id, d) => Move(Goto(s, p, PushNew(id, d)), id, Owned(p, STORED)).(msgs := s.msgs[id := d])
    case PushNew(id, d) =>
      var k := Key((d.tenant, d.queue));
      Move(Goto(s, p, Idle), id, Listed).(pending := s.pending[k := List(s.pending, k) + [id]])
    // dequeue: LLEN, then LPOP, GET, and RPUSH back or SET and SADD
    case ReadLength(o) => Goto(s, p, if List(s.pending, Key(o)) == [] then Idle else Pop(o, |List(s.pending, Key(o))|))
    case Pop(o, left) =>
      var l := List(s.pending, Key(o));
      if left == 0 || l == [] then Goto(s, p, Idle)
      else Move(Goto(s, p, Load(o, left, l[0])), l[0], Owned(p, STORED)).(pending := s.pending[Key(o) := l[1..]])
    case Load(o, left, id) =>
      if id !in s.msgs then Goto(s, p, Pop(o, Less(left)))
      else if s.msgs[id].availableAt <= now then Goto(s, p, MarkInFlight(o, id, s.msgs[id].(status := InFlight)))
      else Goto(s, p, PushBack(o, left, id))
    case PushBack(o, left, id) =>
      var k := Key(o);
      Move(Goto(s, p, Pop(o, Less(left))), id, Listed).(pending := s.pending[k := List(s.pending, k) + [id]])
    case MarkInFlight(o, id, d) => Move(Goto(s, p, AddInFlight(o, id)), id, Owned(p, MARKED)).(msgs := s.msgs[id := d])
    case AddInFlight(o, id) =>
      var k := Key(o);
      Move(s, id, Owned(p, HELD))
        .(inflight := s.inflight[k := InSet(s.inflight, k) + {id}],
          procs := s.procs[p := Process(s.procs[p].held + {id}, Idle)])
    // ack: GET index, GET message, SREM, DEL, DEL
    case AckIndex(t, id) =>
      if !Indexed(s, id) || s.index[id].0 != t then Goto(s, p, Idle) else Goto(s, p, AckLoad(s.index[id], id))
    case AckLoad(o, id) =>
      if id !in s.msgs || s.msgs[id].status != InFlight then Goto(s, p, Idle) else Goto(s, p, AckRemove(o, id))
    case AckRemove(o, id) =>
      var k := Key(o);
      Move(Goto(s, p, AckDelete(id)), id, Owned(p, MARKED)).(inflight := s.inflight[k := InSet(s.inflight, k) - {id}])
    case AckDelete(id) => Move(Goto(s, p, AckUnindex(id)), id, Owned(p, NAMED)).(msgs := s.msgs - {id})
    case AckUnindex(id) => Move(Release(s, p, id), id, Gone).(index := s.index - {id})
    // nack: GET index, GET message, SET, SREM, and LPUSH when requeued
    case NackIndex(t, id, rq, ms) =>
      if !Indexed(s, id) || s.index[id].0 != t then Goto(s, p, Idle) else Goto(s, p, NackLoad(s.index[id], id, rq, ms))
    case NackLoad(o, id, rq, ms) =>
      if id !in s.msgs || s.msgs[id].status != InFlight then Goto(s, p, Idle)
      else
        var d := s.msgs[id].(attempt := s.msgs[id].attempt + 1);
        Goto(s, p, NackSave(o, id, if rq then d.(status := Pending, availableAt := now + Max(0, ms))
                                   else d.(status := Discarded)))
    case NackSave(o, id, d) =>
      Move(Goto(s, p, NackRemove(o, id, d.status.Pending?)), id,
           Owned(p, if d.status.Pending? then REVERTED else DROPPING))
        .(msgs := s.msgs[id := d])
    case NackRemove(o, id, rq) =>
      var k := Key(o);
      var s' := s.(inflight := s.inflight[k := InSet(s.inflight, k) - {id}]);
      if rq then Move(Goto(s', p, NackPush(o, id)), id, Owned(p, STORED)) else Move(Release(s', p, id), id, Dropped)
    case NackPush(o, id) =>
      var k := Key(o);
      Move(Release(s, p, id), id, Listed).(pending := s.pending[k := [id] + List(s.pending, k)])
  }

  // ---- Steps ----

  /** An idle process begins an operation or issues its next command; only a holder acks or nacks; any may crash. */
  datatype Step =
    | StartEnqueue(p: nat, id: string, tenant: string, queue: string, attempt: int, availableAt: int)
    | StartDequeue(p: nat, tenant: string, queue: string)
    | StartAck(p: nat, tenant: string, id: string)
    | StartNack(p: nat, tenant: string, id: string, requeue: bool, delayMs: int)
    | Issue(p: nat, now: int)
    | Crash(p: nat)

  predicate Free(s: System, p: nat) {
    p < |s.procs| && s.procs[p].pc.Idle?
  }

  /** What a crashed process owned belongs to nobody from then on. */
  function AfterCrash(place: map<string, Place>, p: nat): map<string, Place> {
    map id | id in place :: if place[id].Owned? && place[id].p == p then Lost(place[id].shape) else place[id]
  }

  function Next(s: System, step: Step): System {
    match step
    case StartEnqueue(p, id, t, q, a, at) =>
      if !Free(s, p) || id in s.place then s
      else Move(Goto(s, p, SetIndex(id, Data(t, q, a, at, Pending))), id, Owned(p, FRESH))
    case StartDequeue(p, t, q) => if !Free(s, p) then s else Goto(s, p, ReadLength((t, q)))
    case StartAck(p, t, id) => if !Free(s, p) || id !in s.procs[p].held then s else Goto(s, p, AckIndex(t, id))
    case StartNack(p, t, id, rq, ms) =>
      if !Free(s, p) || id !in s.procs[p].held then s else Goto(s, p, NackIndex(t, id, rq, ms))
    case Issue(p, now) => if p >= |s.procs| then s else Command(s, p, now)
    case Crash(p) =>
      if p >= |s.procs| then s else s.(procs := s.procs[p := Process({}, Idle)], place := AfterCrash(s.place, p))
  }

  function After(s: System, steps: seq<Step>): System
    decreases |steps|
  {
    if steps == [] then s else After(Next(s, steps[0]), steps[1..])
  }
}
