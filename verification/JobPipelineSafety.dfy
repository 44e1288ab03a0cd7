/** What every interleaving of the pipeline keeps: sound records and holdings, deliveries, and failures in the DLQ. */
module JobPipelineSafety {
  import opened Basics
  import opened QueueSpec
  import opened JobPipeline
  import JobMachine

  // ---- The invariant, in groups ----

  /** Jobs, their events, and every message ever sent agree on job, event and tenant. */
  ghost predicate Records(s: System) {
    && s.drafting !! s.abandoned && s.drafting + s.abandoned !! s.eventOf.Keys
    && s.jobs.Keys == s.drafting + s.abandoned + s.eventOf.Keys
    && (forall j :: j in s.eventOf ==> s.eventOf[j] in s.events && s.events[s.eventOf[j]].jobId == j)
    && (forall e :: e in s.events ==> EventOk(s, e))
    && (forall id :: id in s.sent ==> s.sent[id].id == id && MessageOk(s, s.sent[id]))
  }

  ghost predicate EventOk(s: System, e: string)
    requires e in s.events
  {
    var j := s.events[e].jobId;
    j in s.jobs && j in s.eventOf && s.eventOf[j] == e && s.jobs[j].tenant == s.events[e].tenant
  }

  ghost predicate MessageOk(s: System, m: Message) {
    var e := m.payload.eventId;
    e in s.events && s.events[e].jobId == m.payload.jobId && s.events[e].tenant == m.tenant
  }

  /** Every queued message is one that was sent, and a busy worker is the only holder of its message. */
  ghost predicate Holdings(s: System) {
    && (forall id :: id in s.pool ==> SameMessage(s, id, s.pool[id].msg))
    && (forall w :: 0 <= w < |s.workers| && s.workers[w].Busy? ==> HeldBy(s, s.workers[w].msg))
    && (forall v, w :: 0 <= v < w < |s.workers| && s.workers[v].Busy? && s.workers[w].Busy? ==>
          s.workers[v].msg.id != s.workers[w].msg.id)
  }

  ghost predicate SameMessage(s: System, id: string, m: Message) {
    id in s.sent && m.id == id && m.payload == s.sent[id].payload && m.tenant == s.sent[id].tenant
  }

  ghost predicate HeldBy(s: System, m: Message) {
    m.id in s.pool && s.pool[m.id] == InFlight(m)
  }

  ghost predicate Relays(s: System) {
    && (forall r :: 0 <= r < |s.relays| ==> RelayOk(s, s.relays[r]))
    && (forall route :: route in s.deliveries ==> SentOn(s, s.deliveries[route], route))
    && (forall e :: e in s.events && s.events[e].published ==> exists c :: (e, c) in s.deliveries)
  }

  ghost predicate RelayOk(s: System, relay: Relay) {
    relay.Relaying? ==>
      && (forall i :: 0 <= i < |relay.todo| ==>
          relay.todo[i] in s.events && s.events[relay.todo[i]].tenant == relay.tenant)
      && (!relay.point.Checking? ==> relay.todo != [])
      && (relay.point.Delivering? ==> SentOn(s, relay.point.messageId, (relay.todo[0], relay.consumer)))
      && (relay.point.Publishing? ==> (relay.todo[0], relay.consumer) in s.deliveries)
  }

  ghost predicate SentOn(s: System, id: string, route: Route) {
    id in s.sent && s.sent[id].payload.eventId == route.0 && s.sent[id].payload.consumer == route.1
  }

  /** A job that failed was cancelled or has its dead-letter item; private copies about to be written agree. */
  ghost predicate Failures(s: System) {
    && (forall j :: j in s.jobs ==> FailureOk(s, j, s.jobs[j]))
    && (forall w :: 0 <= w < |s.workers| && s.workers[w].Busy? ==>
          PhaseOk(s, s.workers[w].msg.payload.jobId, s.workers[w].msg.tenant, s.workers[w].phase))
  }

  ghost predicate FailureOk(s: System, j: string, rec: Record) {
    rec.status == JobMachine.Failed ==> rec.cancelled || s.dlq[j] > 0
  }

  ghost predicate PhaseOk(s: System, j: string, tenant: string, phase: Phase) {
    && (phase.ItemSeeded? ==> s.dlq[j] > 0)
    && (phase.Writing? ==>
          && phase.copy.tenant == tenant && FailureOk(s, j, phase.copy)
          && (if phase.retry then phase.copy.status == JobMachine.Retrying else JobMachine.Terminal(phase.copy.status)))
  }

  ghost predicate WasSent(s: System, j: string) {
    exists id :: id in s.sent && s.sent[id].payload.jobId == j
  }

  ghost predicate Inv(s: System) {
    Records(s) && Holdings(s) && Relays(s) && Failures(s)
  }

  // ---- Worker steps ----

  /** What one small step of a run can do to the stored record and to the worker's own phase. */
  lemma EffectFacts(rec: Record, phase: Phase, act: Act)
    ensures var (rec', phase', seeded) := Effect(rec, phase, act);
            && (!phase.Writing? ==> rec'.tenant == rec.tenant && rec'.cancelled == rec.cancelled)
            && (seeded ==> phase' == ItemSeeded && rec' == rec)
            && (phase'.ItemSeeded? ==> seeded || phase.ItemSeeded?)
            && (phase'.Writing? ==> phase' == phase || phase'.copy == rec')
            && (phase'.Writing? && phase' != phase ==>
                  if phase'.retry then rec'.status == JobMachine.Retrying else JobMachine.Terminal(rec'.status))
            && (rec'.status == JobMachine.Failed && rec.status != JobMachine.Failed ==>
                phase.Writing? || phase.ItemSeeded?)
  {
  }

  /** A waiting record after the step: either the worker's own message survives, or nothing relevant changed. */
  lemma HeldJob(s: System, w: nat)
    requires Records(s) && Holdings(s) && w < |s.workers| && s.workers[w].Busy?
    ensures var m := s.workers[w].msg;
            && m.payload.jobId in s.jobs && s.jobs[m.payload.jobId].tenant == m.tenant
            && m.id in s.sent && s.sent[m.id].payload.jobId == m.payload.jobId && HeldBy(s, m)
  {
    var m := s.workers[w].msg;
    assert HeldBy(s, m) && SameMessage(s, m.id, m) && MessageOk(s, s.sent[m.id]);
    assert EventOk(s, m.payload.eventId);
  }

  /** The state after a small step that left this record, phase and dead-letter addition. */
  ghost function Worked(s: System, w: nat, rec: Record, phase: Phase, seeded: bool): System
    requires w < |s.workers| && s.workers[w].Busy?
  {
    var m := s.workers[w].msg;
    s.(jobs := s.jobs[m.payload.jobId := rec], workers := s.workers[w := Busy(m, phase)],
       dlq := if seeded then s.dlq + multiset{m.payload.jobId} else s.dlq)
  }

  lemma WorkDoes(s: System, w: nat, act: Act, rec: Record, phase: Phase, seeded: bool)
    requires w < |s.workers| && s.workers[w].Busy? && s.workers[w].msg.payload.jobId in s.jobs
    requires var m := s.workers[w].msg;
             && s.jobs[m.payload.jobId].tenant == m.tenant
             && Effect(s.jobs[m.payload.jobId], s.workers[w].phase, act) == (rec, phase, seeded)
    ensures Work(s, w, act) == Worked(s, w, rec, phase, seeded)
  {
  }

  lemma WorkIsWorked(s: System, w: nat, act: Act)
    requires Records(s) && Holdings(s) && w < |s.workers| && s.workers[w].Busy?
    ensures var j := s.workers[w].msg.payload.jobId;
            j in s.jobs &&
            var (rec, phase, seeded) := Effect(s.jobs[j], s.workers[w].phase, act);
            Work(s, w, act) == Worked(s, w, rec, phase, seeded)
  {
    HeldJob(s, w);
  }

  lemma WorkedKeepsRecords(s: System, w: nat, rec: Record, phase: Phase, seeded: bool)
    requires Records(s) && Holdings(s) && w < |s.workers| && s.workers[w].Busy?
    requires rec.tenant == s.workers[w].msg.tenant
    ensures Records(Worked(s, w, rec, phase, seeded))
  {
    HeldJob(s, w);
    var s' := Worked(s, w, rec, phase, seeded);
    assert s'.jobs.Keys == s.jobs.Keys;
    forall e | e in s'.events ensures EventOk(s', e) {
      assert EventOk(s, e);
    }
    forall id | id in s'.sent ensures MessageOk(s', s'.sent[id]) {
      assert MessageOk(s, s.sent[id]);
    }
  }

  lemma WorkedKeepsHoldings(s: System, w: nat, rec: Record, phase: Phase, seeded: bool)
    requires Holdings(s) && w < |s.workers| && s.workers[w].Busy?
    ensures Holdings(Worked(s, w, rec, phase, seeded))
  {
    var s' := Worked(s, w, rec, phase, seeded);
    forall id | id in s'.pool ensures SameMessage(s', id, s'.pool[id].msg) {
      assert SameMessage(s, id, s.pool[id].msg);
    }
    forall v | 0 <= v < |s'.workers| && s'.workers[v].Busy? ensures HeldBy(s', s'.workers[v].msg) {
      assert HeldBy(s, s.workers[v].msg);
    }
  }

  lemma WorkedKeepsRelays(s: System, w: nat, rec: Record, phase: Phase, seeded: bool)
    requires Relays(s) && w < |s.workers| && s.workers[w].Busy?
    ensures Relays(Worked(s, w, rec, phase, seeded))
  {
    var s' := Worked(s, w, rec, phase, seeded);
    forall r | 0 <= r < |s'.relays| ensures RelayOk(s', s'.relays[r]) {
      assert RelayOk(s, s.relays[r]);
    }
    forall route | route in s'.deliveries ensures SentOn(s', s'.deliveries[route], route) {
      assert SentOn(s, s.deliveries[route], route);
    }
  }

  lemma WorkedKeepsFailures(s: System, w: nat, rec: Record, phase: Phase, seeded: bool)
    requires Failures(s) && w < |s.workers| && s.workers[w].Busy?
    requires FailureOk(Worked(s, w, rec, phase, seeded), s.workers[w].msg.payload.jobId, rec)
    requires PhaseOk(Worked(s, w, rec, phase, seeded), s.workers[w].msg.payload.jobId, s.workers[w].msg.tenant, phase)
    ensures Failures(Worked(s, w, rec, phase, seeded))
  {
    var s' := Worked(s, w, rec, phase, seeded);
    forall i | i in s'.jobs ensures FailureOk(s', i, s'.jobs[i]) {
      assert i in s.jobs ==> FailureOk(s, i, s.jobs[i]);
    }
    forall v | 0 <= v < |s'.workers| && s'.workers[v].Busy?
      ensures PhaseOk(s', s'.workers[v].msg.payload.jobId, s'.workers[v].msg.tenant, s'.workers[v].phase)
    {
      assert PhaseOk(s, s.workers[v].msg.payload.jobId, s.workers[v].msg.tenant, s.workers[v].phase);
    }
  }

  lemma WorkKeepsInv(s: System, w: nat, act: Act)
    requires Inv(s)
    ensures Inv(Work(s, w, act))
  {
    if w < |s.workers| && s.workers[w].Busy? {
      var m := s.workers[w].msg;
      var j := m.payload.jobId;
      HeldJob(s, w);
      var (rec, phase, seeded) := Effect(s.jobs[j], s.workers[w].phase, act);
      EffectFacts(s.jobs[j], s.workers[w].phase, act);
      assert PhaseOk(s, j, m.tenant, s.workers[w].phase) && FailureOk(s, j, s.jobs[j]);
      EffectKeepsFailures(s, w, act);
      WorkIsWorked(s, w, act);
      WorkedKeepsRecords(s, w, rec, phase, seeded);
      WorkedKeepsHoldings(s, w, rec, phase, seeded);
      WorkedKeepsRelays(s, w, rec, phase, seeded);
      WorkedKeepsFailures(s, w, rec, phase, seeded);
    }
  }

  lemma EffectKeepsFailures(s: System, w: nat, act: Act)
    requires w < |s.workers| && s.workers[w].Busy? && s.workers[w].msg.payload.jobId in s.jobs
    requires var m := s.workers[w].msg;
             && s.jobs[m.payload.jobId].tenant == m.tenant
             && PhaseOk(s, m.payload.jobId, m.tenant, s.workers[w].phase)
             && FailureOk(s, m.payload.jobId, s.jobs[m.payload.jobId])
    ensures var m := s.workers[w].msg;
            var (rec, phase, seeded) := Effect(s.jobs[m.payload.jobId], s.workers[w].phase, act);
            && rec.tenant == m.tenant
            && FailureOk(Worked(s, w, rec, phase, seeded), m.payload.jobId, rec)
            && PhaseOk(Worked(s, w, rec, phase, seeded), m.payload.jobId, m.tenant, phase)
  {
    EffectFacts(s.jobs[s.workers[w].msg.payload.jobId], s.workers[w].phase, act);
  }

  // ---- Frames: the parts of the invariant that a step does not touch ----

  /** Nothing that the relay part reads has been taken away. */
  lemma RelaysFrame(s: System, s': System)
    requires Relays(s) && s'.relays == s.relays && s'.deliveries == s.deliveries && s'.sent == s.sent
    requires forall e :: e in s.events ==> e in s'.events && s'.events[e] == s.events[e]
    requires forall e :: e in s'.events && e !in s.events ==> !s'.events[e].published
    ensures Relays(s')
  {
    forall r | 0 <= r < |s'.relays| ensures RelayOk(s', s'.relays[r]) {
      assert RelayOk(s, s.relays[r]);
    }
    forall route | route in s'.deliveries ensures SentOn(s', s'.deliveries[route], route) {
      assert SentOn(s, s.deliveries[route], route);
    }
  }

  lemma HoldingsFrame(s: System, s': System)
    requires Holdings(s) && s'.pool == s.pool && s'.workers == s.workers && s'.sent == s.sent
    ensures Holdings(s')
  {
    forall id | id in s'.pool ensures SameMessage(s', id, s'.pool[id].msg) {
      assert SameMessage(s, id, s.pool[id].msg);
    }
    forall w | 0 <= w < |s'.workers| && s'.workers[w].Busy? ensures HeldBy(s', s'.workers[w].msg) {
      assert HeldBy(s, s.workers[w].msg);
    }
  }

  lemma FailuresFrame(s: System, s': System)
    requires Failures(s) && s'.dlq == s.dlq
    requires forall j :: j in s'.jobs ==> (j in s.jobs && s'.jobs[j] == s.jobs[j]) || FailureOk(s', j, s'.jobs[j])
    requires forall w :: 0 <= w < |s'.workers| && s'.workers[w].Busy? ==>
               (w < |s.workers| && s'.workers[w] == s.workers[w]) || s'.workers[w].phase.Fetched?
    ensures Failures(s')
  {
    forall j | j in s'.jobs ensures FailureOk(s', j, s'.jobs[j]) {
      assert j in s.jobs ==> FailureOk(s, j, s.jobs[j]);
    }
    forall w | 0 <= w < |s'.workers| && s'.workers[w].Busy?
      ensures PhaseOk(s', s'.workers[w].msg.payload.jobId, s'.workers[w].msg.tenant, s'.workers[w].phase)
    {
      if !s'.workers[w].phase.Fetched? {
        assert PhaseOk(s, s.workers[w].msg.payload.jobId, s.workers[w].msg.tenant, s.workers[w].phase);
      }
    }
  }

  // ---- Creation and cancellation ----

  lemma PersistKeepsRecords(s: System, jobId: string, tenant: string)
    requires Records(s)
    ensures Records(PersistJob(s, jobId, tenant))
  {
    var s' := PersistJob(s, jobId, tenant);
    if s' != s {
      forall e | e in s'.events ensures EventOk(s', e) {
        assert EventOk(s, e);
      }
      MessagesFrame(s, s');
    }
  }

  lemma PersistKeepsInv(s: System, jobId: string, tenant: string)
    requires Inv(s)
    ensures Inv(PersistJob(s, jobId, tenant))
  {
    var s' := PersistJob(s, jobId, tenant);
    if s' != s {
      PersistKeepsRecords(s, jobId, tenant);
      RelaysFrame(s, s');
      HoldingsFrame(s, s');
      FailuresFrame(s, s');
    }
  }

  lemma SentJobsExist(s: System)
    requires Records(s)
    ensures forall j :: WasSent(s, j) ==> j in s.eventOf
  {
    forall id | id in s.sent ensures s.sent[id].payload.jobId in s.eventOf {
      assert MessageOk(s, s.sent[id]);
      assert EventOk(s, s.sent[id].payload.eventId);
    }
  }

  lemma MessagesFrame(s: System, s': System)
    requires Records(s) && s'.sent == s.sent
    requires forall e :: e in s.events ==>
               e in s'.events && s'.events[e].jobId == s.events[e].jobId && s'.events[e].tenant == s.events[e].tenant
    ensures forall id :: id in s'.sent ==> s'.sent[id].id == id && MessageOk(s', s'.sent[id])
  {
    forall id | id in s'.sent ensures s'.sent[id].id == id && MessageOk(s', s'.sent[id]) {
      assert MessageOk(s, s.sent[id]);
    }
  }

  lemma AppendKeepsRecords(s: System, jobId: string, eventId: string)
    requires Records(s)
    ensures Records(AppendEvent(s, jobId, eventId))
  {
    var s' := AppendEvent(s, jobId, eventId);
    if s' != s {
      forall e | e in s'.events ensures EventOk(s', e) {
        assert e in s.events ==> EventOk(s, e);
      }
      MessagesFrame(s, s');
    }
  }

  lemma AppendKeepsInv(s: System, jobId: string, eventId: string)
    requires Inv(s)
    ensures Inv(AppendEvent(s, jobId, eventId))
  {
    var s' := AppendEvent(s, jobId, eventId);
    if s' != s {
      AppendKeepsRecords(s, jobId, eventId);
      RelaysFrame(s, s');
      HoldingsFrame(s, s');
      FailuresFrame(s, s');
    }
  }

  lemma AbandonKeepsInv(s: System, jobId: string)
    requires Inv(s)
    ensures Inv(AbandonCreation(s, jobId))
  {
    var s' := AbandonCreation(s, jobId);
    if s' != s {
      forall e | e in s'.events ensures EventOk(s', e) {
        assert EventOk(s, e);
      }
      MessagesFrame(s, s');
      assert Records(s');
      RelaysFrame(s, s');
      HoldingsFrame(s, s');
      FailuresFrame(s, s');
    }
  }

  lemma CancelKeepsInv(s: System, jobId: string)
    requires Inv(s)
    ensures Inv(CancelJob(s, jobId))
  {
    var s' := CancelJob(s, jobId);
    if s' != s {
      assert s'.jobs.Keys == s.jobs.Keys;
      forall e | e in s'.events ensures EventOk(s', e) {
        assert EventOk(s, e);
      }
      MessagesFrame(s, s');
      assert Records(s');
      RelaysFrame(s, s');
      HoldingsFrame(s, s');
      FailuresFrame(s, s');
    }
  }

  // ---- Relay steps ----

  /** Only relay r moves; jobs, events, queue, workers and messages are as before. */
  ghost predicate OnlyMoves(s: System, s': System, r: nat) {
    && r < |s.relays| && |s'.relays| == |s.relays|
    && s'.jobs == s.jobs && s'.drafting == s.drafting && s'.abandoned == s.abandoned && s'.eventOf == s.eventOf
    && s'.events == s.events && s'.pool == s.pool && s'.dlq == s.dlq && s'.workers == s.workers && s'.sent == s.sent
    && (forall v :: 0 <= v < |s.relays| && v != r ==> s'.relays[v] == s.relays[v])
  }

  /** A step that only moves relay r, and adds deliveries that were sent. */
  lemma RelayMoveKeepsInv(s: System, s': System, r: nat)
    requires Inv(s) && OnlyMoves(s, s', r)
    requires forall route :: route in s.deliveries ==>
               route in s'.deliveries && s'.deliveries[route] == s.deliveries[route]
    requires forall route :: route in s'.deliveries && route !in s.deliveries ==> SentOn(s, s'.deliveries[route], route)
    requires RelayOk(s', s'.relays[r])
    ensures Inv(s')
  {
    forall e | e in s'.events ensures EventOk(s', e) {
      assert EventOk(s, e);
    }
    MessagesFrame(s, s');
    HoldingsFrame(s, s');
    FailuresFrame(s, s');
    forall v | 0 <= v < |s'.relays| ensures RelayOk(s', s'.relays[v]) {
      assert RelayOk(s, s.relays[v]);
    }
    forall route | route in s'.deliveries ensures SentOn(s', s'.deliveries[route], route) {
      assert route in s.deliveries ==> SentOn(s, s.deliveries[route], route);
    }
    forall e | e in s'.events && s'.events[e].published ensures exists c :: (e, c) in s'.deliveries {
      var c :| (e, c) in s.deliveries;
      assert (e, c) in s'.deliveries;
    }
  }

  lemma RelayStartKeepsInv(s: System, r: nat, tenant: string, consumer: string, queue: string, todo: seq<string>)
    requires Inv(s)
    ensures Inv(RelayStart(s, r, tenant, consumer, queue, todo))
  {
    if RelayStart(s, r, tenant, consumer, queue, todo) != s {
      RelayMoveKeepsInv(s, RelayStart(s, r, tenant, consumer, queue, todo), r);
    }
  }

  lemma RelayCheckKeepsInv(s: System, r: nat)
    requires Inv(s)
    ensures Inv(RelayCheck(s, r))
  {
    if RelayCheck(s, r) != s {
      assert RelayOk(s, s.relays[r]);
      RelayMoveKeepsInv(s, RelayCheck(s, r), r);
    }
  }

  lemma RelayStopMoves(s: System, r: nat)
    requires r < |s.relays|
    ensures var s' := RelayStop(s, r); OnlyMoves(s, s', r) && s'.deliveries == s.deliveries && s'.relays[r].Resting?
  {
  }

  lemma RelayStopKeepsInv(s: System, r: nat)
    requires Inv(s)
    ensures Inv(RelayStop(s, r))
  {
    if r < |s.relays| {
      RelayStopMoves(s, r);
      RelayMoveKeepsInv(s, RelayStop(s, r), r);
    }
  }

  lemma RelayDeliverKeepsInv(s: System, r: nat)
    requires Inv(s)
    ensures Inv(RelayDeliver(s, r))
  {
    var s' := RelayDeliver(s, r);
    if AtEvent(s, r) && s.relays[r].point.Delivering? {
      assert RelayOk(s, s.relays[r]);
      var route, id := RouteAt(s, r), s.relays[r].point.messageId;
      assert SentOn(s, id, route);
      RelayDeliverMoves(s, r);
      assert RelayOk(s', s'.relays[r]);
      RelayMoveKeepsInv(s, s', r);
    }
  }

  lemma RelayDeliverMoves(s: System, r: nat)
    requires AtEvent(s, r) && s.relays[r].point.Delivering?
    ensures var s', route, id := RelayDeliver(s, r), RouteAt(s, r), s.relays[r].point.messageId;
            && OnlyMoves(s, s', r) && s'.relays[r] == s.relays[r].(point := Publishing)
            && (s'.deliveries == s.deliveries || s'.deliveries == s.deliveries[route := id]) && route in s'.deliveries
  {
  }

  lemma RelayPublishKeepsRelays(s: System, r: nat)
    requires Relays(s)
    ensures Relays(RelayPublish(s, r))
  {
    var s' := RelayPublish(s, r);
    if s' != s {
      assert RelayOk(s, s.relays[r]);
      var route := RouteAt(s, r);
      assert route in s.deliveries && s'.deliveries == s.deliveries;
      forall v | 0 <= v < |s'.relays| ensures RelayOk(s', s'.relays[v]) {
        assert RelayOk(s, s.relays[v]);
      }
      forall d | d in s'.deliveries ensures SentOn(s', s'.deliveries[d], d) {
        assert SentOn(s, s.deliveries[d], d);
      }
      forall e | e in s'.events && s'.events[e].published ensures exists c :: (e, c) in s'.deliveries {
        if e == route.0 {
          assert (e, route.1) in s'.deliveries;
        } else {
          var c :| (e, c) in s.deliveries;
          assert (e, c) in s'.deliveries;
        }
      }
    }
  }

  lemma RelayPublishKeepsInv(s: System, r: nat)
    requires Inv(s)
    ensures Inv(RelayPublish(s, r))
  {
    var s' := RelayPublish(s, r);
    RelayPublishKeepsRelays(s, r);
    if s' != s {
      forall e | e in s'.events ensures EventOk(s', e) {
        assert EventOk(s, e);
      }
      MessagesFrame(s, s');
      HoldingsFrame(s, s');
      FailuresFrame(s, s');
    }
  }

  lemma RelayEnqueueKeepsRecords(s: System, r: nat, id: string, now: int)
    requires Inv(s)
    ensures Records(RelayEnqueue(s, r, id, now)) && Holdings(RelayEnqueue(s, r, id, now))
  {
    var s' := RelayEnqueue(s, r, id, now);
    if s' != s {
      assert RelayOk(s, s.relays[r]);
      forall e | e in s'.events ensures EventOk(s', e) {
        assert EventOk(s, e);
      }
      forall x | x in s'.sent ensures s'.sent[x].id == x && MessageOk(s', s'.sent[x]) {
        assert x in s.sent ==> MessageOk(s, s.sent[x]);
      }
      assert id !in s.pool by {
        assert id in s.pool ==> SameMessage(s, id, s.pool[id].msg);
      }
      forall x | x in s'.pool ensures SameMessage(s', x, s'.pool[x].msg) {
        assert x in s.pool ==> SameMessage(s, x, s.pool[x].msg);
      }
      forall w | 0 <= w < |s'.workers| && s'.workers[w].Busy? ensures HeldBy(s', s'.workers[w].msg) {
        assert HeldBy(s, s.workers[w].msg);
      }
    }
  }

  lemma RelayEnqueueKeepsRelays(s: System, r: nat, id: string, now: int)
    requires Inv(s)
    ensures Relays(RelayEnqueue(s, r, id, now))
  {
    var s' := RelayEnqueue(s, r, id, now);
    if s' != s {
      assert RelayOk(s, s.relays[r]);
      forall v | 0 <= v < |s'.relays| ensures RelayOk(s', s'.relays[v]) {
        assert RelayOk(s, s.relays[v]);
      }
      forall d | d in s'.deliveries ensures SentOn(s', s'.deliveries[d], d) {
        assert SentOn(s, s.deliveries[d], d);
      }
    }
  }

  lemma RelayEnqueueKeepsInv(s: System, r: nat, id: string, now: int)
    requires Inv(s)
    ensures Inv(RelayEnqueue(s, r, id, now))
  {
    RelayEnqueueKeepsRecords(s, r, id, now);
    RelayEnqueueKeepsRelays(s, r, id, now);
    FailuresFrame(s, RelayEnqueue(s, r, id, now));
  }

  // ---- Taking and settling messages ----

  lemma RecordsFrame(s: System, s': System)
    requires Records(s) && s'.jobs == s.jobs && s'.drafting == s.drafting && s'.abandoned == s.abandoned
    requires s'.events == s.events && s'.eventOf == s.eventOf && s'.sent == s.sent
    ensures Records(s')
  {
    forall e | e in s'.events ensures EventOk(s', e) {
      assert EventOk(s, e);
    }
    MessagesFrame(s, s');
  }

  lemma DequeueKeepsInv(s: System, w: nat, id: string)
    requires Inv(s)
    ensures Inv(JobPipeline.Dequeue(s, w, id))
  {
    var s' := JobPipeline.Dequeue(s, w, id);
    if s' != s {
      assert SameMessage(s, id, s.pool[id].msg);
      forall v | 0 <= v < |s.workers| && s.workers[v].Busy? ensures s.workers[v].msg.id != id {
        assert HeldBy(s, s.workers[v].msg);
      }
      RecordsFrame(s, s');
      RelaysFrame(s, s');
      FailuresFrame(s, s');
      forall x | x in s'.pool ensures SameMessage(s', x, s'.pool[x].msg) {
        assert SameMessage(s, x, s.pool[x].msg);
      }
      forall v | 0 <= v < |s'.workers| && s'.workers[v].Busy? ensures HeldBy(s', s'.workers[v].msg) {
        assert v != w ==> HeldBy(s, s.workers[v].msg);
      }
      assert Holdings(s');
    }
  }

  lemma WorkerCrashKeepsInv(s: System, w: nat)
    requires Inv(s)
    ensures Inv(WorkerCrash(s, w))
  {
    var s' := WorkerCrash(s, w);
    if w < |s.workers| {
      RecordsFrame(s, s');
      RelaysFrame(s, s');
      FailuresFrame(s, s');
      forall x | x in s'.pool ensures SameMessage(s', x, s'.pool[x].msg) {
        assert SameMessage(s, x, s.pool[x].msg);
      }
      forall v | 0 <= v < |s'.workers| && s'.workers[v].Busy? ensures HeldBy(s', s'.workers[v].msg) {
        assert HeldBy(s, s.workers[v].msg);
      }
    }
  }

  /** The worker lets go of its message, which left the pool (after an ack) or became pending again. */
  ghost function Released(s: System, w: nat, pool: Pool): System
    requires w < |s.workers|
  {
    s.(workers := s.workers[w := Idle], pool := pool)
  }

  ghost predicate PoolWithout(s: System, m: Message, pool: Pool) {
    && (forall x :: x in pool ==> x in s.pool || x == m.id)
    && (forall x :: x in s.pool && x != m.id ==> x in pool && pool[x] == s.pool[x])
    && (m.id in pool ==> SameMessage(s, m.id, pool[m.id].msg))
  }

  lemma ReleasedKeepsHoldings(s: System, w: nat, pool: Pool)
    requires Holdings(s) && w < |s.workers| && s.workers[w].Busy? && PoolWithout(s, s.workers[w].msg, pool)
    ensures Holdings(Released(s, w, pool))
  {
    var s', m := Released(s, w, pool), s.workers[w].msg;
    forall x | x in s'.pool ensures SameMessage(s', x, s'.pool[x].msg) {
      if x != m.id {
        assert SameMessage(s, x, s.pool[x].msg);
      }
    }
    forall v | 0 <= v < |s'.workers| && s'.workers[v].Busy? ensures HeldBy(s', s'.workers[v].msg) {
      assert v != w && HeldBy(s, s.workers[v].msg);
      assert s.workers[v].msg.id != m.id;
    }
  }

  lemma SettleKeepsInv(s: System, w: nat, delayMs: int, now: int)
    requires Inv(s)
    ensures Inv(Settle(s, w, delayMs, now))
  {
    if w < |s.workers| && s.workers[w].Busy? && s.workers[w].phase.Finished? {
      var m := s.workers[w].msg;
      var pool := if s.workers[w].phase.retry
                  then s.pool[m.id := Pending(Bumped(m, true, delayMs, now))] else s.pool - {m.id};
      var s' := Released(s, w, pool);
      assert Settle(s, w, delayMs, now) == s';
      assert HeldBy(s, m) && SameMessage(s, m.id, m);
      ReleasedKeepsHoldings(s, w, pool);
      RecordsFrame(s, s');
      RelaysFrame(s, s');
      FailuresFrame(s, s');
    }
  }

  // ---- Losing messages ----

  lemma DequeueCutKeepsInv(s: System, w: nat, id: string)
    requires Inv(s)
    ensures Inv(DequeueCut(s, w, id))
  {
    var s' := DequeueCut(s, w, id);
    if s' != s {
      forall x | x in s'.pool ensures SameMessage(s', x, s'.pool[x].msg) {
        assert SameMessage(s, x, s.pool[x].msg);
      }
      forall v | 0 <= v < |s'.workers| && s'.workers[v].Busy? ensures HeldBy(s', s'.workers[v].msg) {
        assert HeldBy(s, s.workers[v].msg);
      }
      RecordsFrame(s, s');
      RelaysFrame(s, s');
      FailuresFrame(s, s');
    }
  }

  lemma NackCutKeepsInv(s: System, w: nat)
    requires Inv(s)
    ensures Inv(NackCut(s, w))
  {
    if w < |s.workers| && s.workers[w].Busy? && s.workers[w].phase == Finished(true) {
      var pool := s.pool - {s.workers[w].msg.id};
      var s' := Released(s, w, pool);
      assert NackCut(s, w) == s';
      ReleasedKeepsHoldings(s, w, pool);
      RecordsFrame(s, s');
      RelaysFrame(s, s');
      FailuresFrame(s, s');
    }
  }

  // ---- Every run ----

  predicate IsRelayStep(step: Step) {
    step.RelayStartStep? || step.RelayCheckStep? || step.RelayEnqueueStep? || step.RelayDeliverStep?
    || step.RelayPublishStep? || step.RelayStopStep?
  }

  predicate IsJobStep(step: Step) {
    step.PersistStep? || step.AppendStep? || step.AbandonStep? || step.CancelStep?
  }

  lemma JobStepKeepsInv(s: System, step: Step)
    requires Inv(s) && IsJobStep(step)
    ensures Inv(Next(s, step))
  {
    match step
    case PersistStep(j, t) => PersistKeepsInv(s, j, t);
    case AppendStep(j, e) => AppendKeepsInv(s, j, e);
    case AbandonStep(j) => AbandonKeepsInv(s, j);
    case CancelStep(j) => CancelKeepsInv(s, j);
  }

  lemma RelayStepKeepsInv(s: System, step: Step)
    requires Inv(s) && IsRelayStep(step)
    ensures Inv(Next(s, step))
  {
    match step
    case RelayStartStep(r, t, c, q, todo) => RelayStartKeepsInv(s, r, t, c, q, todo);
    case RelayCheckStep(r) => RelayCheckKeepsInv(s, r);
    case RelayEnqueueStep(r, id, now) => RelayEnqueueKeepsInv(s, r, id, now);
    case RelayDeliverStep(r) => RelayDeliverKeepsInv(s, r);
    case RelayPublishStep(r) => RelayPublishKeepsInv(s, r);
    case RelayStopStep(r) => RelayStopKeepsInv(s, r);
  }

  lemma WorkerStepKeepsInv(s: System, step: Step)
    requires Inv(s) && !IsJobStep(step) && !IsRelayStep(step)
    ensures Inv(Next(s, step))
  {
    match step
    case DequeueStep(w, id) => DequeueKeepsInv(s, w, id);
    case WorkStep(w, act) => WorkKeepsInv(s, w, act);
    case SettleStep(w, ms, now) => SettleKeepsInv(s, w, ms, now);
    case WorkerCrashStep(w) => WorkerCrashKeepsInv(s, w);
    case DequeueCutStep(w, id) => DequeueCutKeepsInv(s, w, id);
    case NackCutStep(w) => NackCutKeepsInv(s, w);
  }

  lemma NextKeepsInv(s: System, step: Step)
    requires Inv(s)
    ensures Inv(Next(s, step))
  {
    if IsJobStep(step) {
      JobStepKeepsInv(s, step);
    } else if IsRelayStep(step) {
      RelayStepKeepsInv(s, step);
    } else {
      WorkerStepKeepsInv(s, step);
    }
  }

  lemma {:induction false} RunKeepsInv(s: System, steps: seq<Step>)
    requires Inv(s)
    ensures Inv(After(s, steps))
    decreases |steps|
  {
    if steps != [] {
      NextKeepsInv(s, steps[0]);
      RunKeepsInv(Next(s, steps[0]), steps[1..]);
    }
  }

  lemma InitInv(relays: nat, workers: nat)
    ensures Inv(Init(relays, workers))
  {
  }

  /** In every reachable state, a job that failed without being cancelled already has a dead-letter item. */
  lemma FailedJobsAreInDlq(relays: nat, workers: nat, steps: seq<Step>, jobId: string)
    ensures var s := After(Init(relays, workers), steps);
            jobId in s.jobs && s.jobs[jobId].status == JobMachine.Failed && !s.jobs[jobId].cancelled ==>
              s.dlq[jobId] > 0
  {
    InitInv(relays, workers);
    RunKeepsInv(Init(relays, workers), steps);
    var s := After(Init(relays, workers), steps);
    assert jobId in s.jobs ==> FailureOk(s, jobId, s.jobs[jobId]);
  }

  /** Every published event has a delivery, and that delivery's message was enqueued for this event and consumer. */
  lemma PublishedWasEnqueued(relays: nat, workers: nat, steps: seq<Step>, eventId: string)
    ensures var s := After(Init(relays, workers), steps);
            eventId in s.events && s.events[eventId].published ==>
              exists c :: (eventId, c) in s.deliveries && SentOn(s, s.deliveries[(eventId, c)], (eventId, c))
  {
    InitInv(relays, workers);
    RunKeepsInv(Init(relays, workers), steps);
    var s := After(Init(relays, workers), steps);
    if eventId in s.events && s.events[eventId].published {
      var c :| (eventId, c) in s.deliveries;
      assert SentOn(s, s.deliveries[(eventId, c)], (eventId, c));
    }
  }
}
