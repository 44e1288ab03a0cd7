/** The outbox relay counted: how many messages one event and consumer can get, with crashes and with overlap. */
module JobPipelineRelay {
  import opened Basics
  import opened QueueSpec
  import opened JobPipeline
  import opened JobPipelineSafety

  /** The messages ever enqueued for an event and a consumer. */
  ghost function Enqueued(s: System, route: Route): set<string> {
    set id | id in s.sent && s.sent[id].payload.eventId == route.0 && s.sent[id].payload.consumer == route.1
  }

  /** A relay that has enqueued for this route and not yet marked the delivery. */
  predicate Pausing(relay: Relay, route: Route) {
    relay.Relaying? && relay.point.Delivering? && relay.todo != [] && (relay.todo[0], relay.consumer) == route
  }

  function Between(relays: seq<Relay>, route: Route): nat {
    if relays == [] then 0 else (if Pausing(relays[0], route) then 1 else 0) + Between(relays[1..], route)
  }

  lemma {:induction false} BetweenUpdate(relays: seq<Relay>, r: nat, relay: Relay, route: Route)
    requires r < |relays|
    ensures Between(relays[r := relay], route) + (if Pausing(relays[r], route) then 1 else 0)
              == Between(relays, route) + (if Pausing(relay, route) then 1 else 0)
  {
    if r == 0 {
      assert relays[r := relay][1..] == relays[1..];
    } else {
      assert relays[r := relay][1..] == relays[1..][r - 1 := relay];
      BetweenUpdate(relays[1..], r - 1, relay, route);
    }
  }

  function One(b: bool): nat {
    if b then 1 else 0
  }

  /** Every enqueue is accounted for: the delivery it made, a mark that came too late, a crash, or a pause. */
  ghost predicate Balanced(s: System, route: Route) {
    |Enqueued(s, route)|
      == One(route in s.deliveries) + s.redundant[route] + s.crashed[route] + Between(s.relays, route)
  }

  /** What the relay count reads stays as it was. */
  ghost predicate Quiet(s: System, s': System) {
    s'.relays == s.relays && s'.deliveries == s.deliveries && s'.sent == s.sent
    && s'.redundant == s.redundant && s'.crashed == s.crashed
  }

  lemma CreationIsQuiet(s: System, jobId: string, tenant: string, eventId: string)
    ensures Quiet(s, PersistJob(s, jobId, tenant)) && Quiet(s, AppendEvent(s, jobId, eventId))
    ensures Quiet(s, AbandonCreation(s, jobId)) && Quiet(s, CancelJob(s, jobId))
  {
  }

  lemma HandlingIsQuiet(s: System, w: nat, id: string, delayMs: int, now: int)
    ensures Quiet(s, JobPipeline.Dequeue(s, w, id)) && Quiet(s, Settle(s, w, delayMs, now))
  {
  }

  lemma CrashIsQuiet(s: System, w: nat, id: string)
    ensures Quiet(s, WorkerCrash(s, w)) && Quiet(s, DequeueCut(s, w, id)) && Quiet(s, NackCut(s, w))
  {
  }

  lemma OthersAreQuiet(s: System, step: Step)
    requires !IsRelayStep(step)
    ensures Quiet(s, Next(s, step))
  {
    match step
    case PersistStep(j, t) => CreationIsQuiet(s, j, t, "");
    case AppendStep(j, e) => CreationIsQuiet(s, j, "", e);
    case AbandonStep(j) => CreationIsQuiet(s, j, "", "");
    case CancelStep(j) => CreationIsQuiet(s, j, "", "");
    case DequeueStep(w, id) => HandlingIsQuiet(s, w, id, 0, 0);
    case WorkStep(w, act) => WorkIsQuiet(s, w, act);
    case SettleStep(w, ms, now) => HandlingIsQuiet(s, w, "", ms, now);
    case WorkerCrashStep(w) => CrashIsQuiet(s, w, "");
    case DequeueCutStep(w, id) => CrashIsQuiet(s, w, id);
    case NackCutStep(w) => CrashIsQuiet(s, w, "");
  }

  lemma WorkIsQuiet(s: System, w: nat, act: Act)
    ensures Quiet(s, Work(s, w, act))
  {
  }

  /** Jobs, queue, workers, messages and dead-letter items are as before. */
  ghost predicate LeavesWork(s: System, s': System) {
    s'.jobs == s.jobs && s'.pool == s.pool && s'.workers == s.workers && s'.sent == s.sent && s'.dlq == s.dlq
  }

  lemma RelayStartLeavesWork(s: System, r: nat, tenant: string, consumer: string, queue: string, todo: seq<string>)
    ensures LeavesWork(s, RelayStart(s, r, tenant, consumer, queue, todo))
  {
  }

  lemma RelayCheckLeavesWork(s: System, r: nat)
    ensures LeavesWork(s, RelayCheck(s, r))
  {
  }

  lemma RelayDeliverLeavesWork(s: System, r: nat)
    ensures LeavesWork(s, RelayDeliver(s, r))
  {
    if AtEvent(s, r) && s.relays[r].point.Delivering? {
      assert LeavesWork(s, SetPoint(s, r, Publishing));
    }
  }

  lemma RelayEndsLeaveWork(s: System, r: nat)
    ensures LeavesWork(s, RelayPublish(s, r)) && LeavesWork(s, RelayStop(s, r))
  {
  }

  /** Of the relay only the enqueue reaches the workers' side. */
  lemma RelayLeavesWork(s: System, step: Step)
    requires IsRelayStep(step) && !step.RelayEnqueueStep?
    ensures LeavesWork(s, Next(s, step))
  {
    match step
    case RelayStartStep(r, t, c, q, todo) => RelayStartLeavesWork(s, r, t, c, q, todo);
    case RelayCheckStep(r) => RelayCheckLeavesWork(s, r);
    case RelayDeliverStep(r) => RelayDeliverLeavesWork(s, r);
    case RelayPublishStep(r) => RelayEndsLeaveWork(s, r);
    case RelayStopStep(r) => RelayEndsLeaveWork(s, r);
  }

  /** A step that replaces relay r and enqueues nothing balances when its other counts make up for the change. */
  lemma MoveKeepsBalance(s: System, s': System, r: nat, relay: Relay, route: Route)
    requires Balanced(s, route) && r < |s.relays| && s'.relays == s.relays[r := relay] && s'.sent == s.sent
    requires One(route in s'.deliveries) + s'.redundant[route] + s'.crashed[route] + One(Pausing(relay, route))
               == One(route in s.deliveries) + s.redundant[route] + s.crashed[route] + One(Pausing(s.relays[r], route))
    ensures Balanced(s', route)
  {
    BetweenUpdate(s.relays, r, relay, route);
    assert Enqueued(s', route) == Enqueued(s, route);
  }

  lemma StartKeepsBalance(s: System, r: nat, tenant: string, consumer: string, queue: string, todo: seq<string>,
                          route: Route)
    requires Balanced(s, route)
    ensures Balanced(RelayStart(s, r, tenant, consumer, queue, todo), route)
  {
    var s' := RelayStart(s, r, tenant, consumer, queue, todo);
    if s' != s {
      MoveKeepsBalance(s, s', r, s'.relays[r], route);
    }
  }

  lemma CheckKeepsBalance(s: System, r: nat, route: Route)
    requires Balanced(s, route)
    ensures Balanced(RelayCheck(s, r), route)
  {
    var s' := RelayCheck(s, r);
    if s' != s {
      MoveKeepsBalance(s, s', r, s'.relays[r], route);
    }
  }

  lemma DeliverKeepsBalance(s: System, r: nat, route: Route)
    requires Balanced(s, route)
    ensures Balanced(RelayDeliver(s, r), route)
  {
    if AtEvent(s, r) && s.relays[r].point.Delivering? {
      DeliverCounts(s, r, route);
      MoveKeepsBalance(s, RelayDeliver(s, r), r, s.relays[r].(point := Publishing), route);
    }
  }

  /** A mark is counted as the delivery it makes, or as redundant. */
  lemma DeliverCounts(s: System, r: nat, route: Route)
    requires AtEvent(s, r) && s.relays[r].point.Delivering?
    ensures var s' := RelayDeliver(s, r);
            && s'.relays == s.relays[r := s.relays[r].(point := Publishing)]
            && s'.sent == s.sent && s'.crashed == s.crashed
            && One(route in s'.deliveries) + s'.redundant[route]
                 == One(route in s.deliveries) + s.redundant[route] + One(Pausing(s.relays[r], route))
  {
    assert Pausing(s.relays[r], route) <==> RouteAt(s, r) == route;
  }

  lemma PublishKeepsBalance(s: System, r: nat, route: Route)
    requires Balanced(s, route)
    ensures Balanced(RelayPublish(s, r), route)
  {
    var s' := RelayPublish(s, r);
    if AtEvent(s, r) && s.relays[r].point.Publishing? && RouteAt(s, r).0 in s.events {
      MoveKeepsBalance(s, s', r, s.relays[r].(todo := s.relays[r].todo[1..], point := Checking), route);
    }
  }

  lemma StopKeepsBalance(s: System, r: nat, route: Route)
    requires Balanced(s, route)
    ensures Balanced(RelayStop(s, r), route)
  {
    if r < |s.relays| {
      if AtEvent(s, r) && s.relays[r].point.Delivering? {
        assert Pausing(s.relays[r], route) <==> RouteAt(s, r) == route;
      }
      MoveKeepsBalance(s, RelayStop(s, r), r, Resting, route);
    }
  }

  lemma EnqueueKeepsBalance(s: System, r: nat, id: string, now: int, route: Route)
    requires Balanced(s, route)
    ensures Balanced(RelayEnqueue(s, r, id, now), route)
  {
    if AtEvent(s, r) && s.relays[r].point.Enqueueing? && RouteAt(s, r).0 in s.events && id !in s.sent {
      var s' := RelayEnqueue(s, r, id, now);
      var relay := s.relays[r].(point := Delivering(id));
      assert s'.relays == s.relays[r := relay];
      BetweenUpdate(s.relays, r, relay, route);
      NewlyEnqueued(s, s', id, RelayMessage(s, r, id, now), route);
    }
  }

  lemma NewlyEnqueued(s: System, s': System, id: string, m: Message, route: Route)
    requires id !in s.sent && s'.sent == s.sent[id := m]
    ensures |Enqueued(s', route)| ==
              |Enqueued(s, route)| + One(m.payload.eventId == route.0 && m.payload.consumer == route.1)
  {
    var mine := m.payload.eventId == route.0 && m.payload.consumer == route.1;
    forall x | x != id ensures x in Enqueued(s', route) <==> x in Enqueued(s, route) {
    }
    assert id in Enqueued(s', route) <==> mine;
    assert Enqueued(s', route) == Enqueued(s, route) + if mine then {id} else {};
  }

  lemma StepKeepsBalance(s: System, step: Step, route: Route)
    requires Balanced(s, route)
    ensures Balanced(Next(s, step), route)
  {
    match step
    case RelayStartStep(r, t, c, q, todo) => StartKeepsBalance(s, r, t, c, q, todo, route);
    case RelayCheckStep(r) => CheckKeepsBalance(s, r, route);
    case RelayEnqueueStep(r, id, now) => EnqueueKeepsBalance(s, r, id, now, route);
    case RelayDeliverStep(r) => DeliverKeepsBalance(s, r, route);
    case RelayPublishStep(r) => PublishKeepsBalance(s, r, route);
    case RelayStopStep(r) => StopKeepsBalance(s, r, route);
    case _ =>
      OthersAreQuiet(s, step);
      assert Enqueued(Next(s, step), route) == Enqueued(s, route);
  }

  lemma {:induction false} BetweenInit(n: nat, route: Route)
    ensures Between(seq(n, _ => Resting), route) == 0
  {
    if n > 0 {
      assert seq(n, _ => Resting)[1..] == seq(n - 1, _ => Resting);
      BetweenInit(n - 1, route);
    }
  }

  lemma {:induction false} RunKeepsBalance(s: System, steps: seq<Step>, route: Route)
    requires Balanced(s, route)
    ensures Balanced(After(s, steps), route)
    decreases |steps|
  {
    if steps != [] {
      StepKeepsBalance(s, steps[0], route);
      RunKeepsBalance(Next(s, steps[0]), steps[1..], route);
    }
  }

  /** In every run of any number of relays, the messages of a route are counted exactly. */
  lemma EnqueuesAreCounted(relays: nat, workers: nat, steps: seq<Step>, route: Route)
    ensures Balanced(After(Init(relays, workers), steps), route)
  {
    var s := Init(relays, workers);
    BetweenInit(relays, route);
    assert Enqueued(s, route) == {};
    RunKeepsBalance(s, steps, route);
  }

  // ---- The bound, and the one step that breaks it ----

  /** At most one message, plus one for each crash between an enqueue and its mark. */
  ghost predicate Within(s: System, route: Route) {
    |Enqueued(s, route)| <= 1 + s.crashed[route]
  }

  /** The guard of the enqueue: the route is already marked as delivered, or a relay is about to mark it. */
  ghost predicate Taken(s: System, route: Route) {
    route in s.deliveries || exists q :: 0 <= q < |s.relays| && Pausing(s.relays[q], route)
  }

  /** The step enqueues a message for this route. */
  predicate Enqueues(s: System, step: Step, route: Route) {
    && step.RelayEnqueueStep? && AtEvent(s, step.r) && s.relays[step.r].point.Enqueueing?
    && RouteAt(s, step.r) == route && route.0 in s.events && step.id !in s.sent
  }

  ghost predicate Doubles(s: System, step: Step, route: Route) {
    Enqueues(s, step, route) && Taken(s, route)
  }

  /** A mark that came too late found a mark. */
  ghost predicate Marked(s: System, route: Route) {
    Balanced(s, route) && (s.redundant[route] > 0 ==> route in s.deliveries)
  }

  lemma {:induction false} BetweenIsZeroIff(relays: seq<Relay>, route: Route)
    ensures Between(relays, route) == 0 <==> forall q :: 0 <= q < |relays| ==> !Pausing(relays[q], route)
  {
    if relays != [] {
      BetweenIsZeroIff(relays[1..], route);
      assert forall q :: 1 <= q < |relays| ==> relays[q] == relays[1..][q - 1];
    }
  }

  /** A route is free exactly when crashes account for all its messages. */
  lemma FreeIff(s: System, route: Route)
    requires Marked(s, route)
    ensures !Taken(s, route) <==> |Enqueued(s, route)| == s.crashed[route]
  {
    BetweenIsZeroIff(s.relays, route);
  }

  lemma DeliverKeepsMarked(s: System, r: nat, route: Route)
    requires Marked(s, route)
    ensures Marked(RelayDeliver(s, r), route)
  {
    DeliverKeepsBalance(s, r, route);
  }

  /** No other step counts a late mark or removes a mark. */
  lemma OthersKeepMarks(s: System, step: Step)
    requires !step.RelayDeliverStep?
    ensures SameMarks(s, Next(s, step))
  {
    match step
    case RelayStartStep(r, t, c, q, todo) => StartKeepsMarks(s, r, t, c, q, todo);
    case RelayCheckStep(r) => CheckKeepsMarks(s, r);
    case RelayEnqueueStep(r, id, now) => EnqueueKeepsMarks(s, r, id, now);
    case RelayPublishStep(r) => EndsKeepMarks(s, r);
    case RelayStopStep(r) => EndsKeepMarks(s, r);
    case _ => OthersAreQuiet(s, step);
  }

  ghost predicate SameMarks(s: System, s': System) {
    s'.deliveries == s.deliveries && s'.redundant == s.redundant
  }

  lemma StartKeepsMarks(s: System, r: nat, tenant: string, consumer: string, queue: string, todo: seq<string>)
    ensures SameMarks(s, RelayStart(s, r, tenant, consumer, queue, todo))
  {
  }

  lemma CheckKeepsMarks(s: System, r: nat)
    ensures SameMarks(s, RelayCheck(s, r))
  {
  }

  lemma EnqueueKeepsMarks(s: System, r: nat, id: string, now: int)
    ensures SameMarks(s, RelayEnqueue(s, r, id, now))
  {
  }

  lemma EndsKeepMarks(s: System, r: nat)
    ensures SameMarks(s, RelayPublish(s, r)) && SameMarks(s, RelayStop(s, r))
  {
  }

  lemma StepKeepsMarked(s: System, step: Step, route: Route)
    requires Marked(s, route)
    ensures Marked(Next(s, step), route)
  {
    StepKeepsBalance(s, step, route);
    if step.RelayDeliverStep? {
      DeliverKeepsMarked(s, step.r, route);
    } else {
      OthersKeepMarks(s, step);
    }
  }

  /** A step adds a message to the route exactly when it enqueues for it, and forgets no crash. */
  lemma OnlyEnqueuesAdd(s: System, step: Step, route: Route)
    ensures |Enqueued(Next(s, step), route)| == |Enqueued(s, route)| + One(Enqueues(s, step, route))
    ensures Next(s, step).crashed[route] >= s.crashed[route]
    ensures Enqueues(s, step, route) ==> Next(s, step).crashed == s.crashed
  {
    if step.RelayEnqueueStep? {
      EnqueueAdds(s, step.r, step.id, step.now, route);
    } else {
      OthersSendNothing(s, step);
      assert Enqueued(Next(s, step), route) == Enqueued(s, route);
    }
  }

  lemma EnqueueAdds(s: System, r: nat, id: string, now: int, route: Route)
    ensures var s' := RelayEnqueue(s, r, id, now);
            && |Enqueued(s', route)| == |Enqueued(s, route)| + One(Enqueues(s, RelayEnqueueStep(r, id, now), route))
            && s'.crashed == s.crashed
  {
    if AtEvent(s, r) && s.relays[r].point.Enqueueing? && RouteAt(s, r).0 in s.events && id !in s.sent {
      NewlyEnqueued(s, RelayEnqueue(s, r, id, now), id, RelayMessage(s, r, id, now), route);
    }
  }

  lemma OthersSendNothing(s: System, step: Step)
    requires !step.RelayEnqueueStep?
    ensures Next(s, step).sent == s.sent && s.crashed <= Next(s, step).crashed
  {
    if IsRelayStep(step) {
      RelayLeavesWork(s, step);
    } else {
      OthersAreQuiet(s, step);
    }
  }

  /** Within the bound, a step goes past it if and only if it enqueues for a route that is taken. */
  lemma StepDoublesIff(s: System, step: Step, route: Route)
    requires Marked(s, route) && Within(s, route)
    ensures Within(Next(s, step), route) <==> !Doubles(s, step, route)
  {
    OnlyEnqueuesAdd(s, step, route);
    FreeIff(s, route);
  }

  /** The bound holds at every moment of the run. */
  ghost predicate AlwaysWithin(s: System, steps: seq<Step>, route: Route)
    decreases |steps|
  {
    Within(s, route) && (steps != [] ==> AlwaysWithin(Next(s, steps[0]), steps[1..], route))
  }

  ghost predicate DoublesNone(s: System, steps: seq<Step>, route: Route)
    decreases |steps|
  {
    steps != [] ==> !Doubles(s, steps[0], route) && DoublesNone(Next(s, steps[0]), steps[1..], route)
  }

  lemma {:induction false} RunDoublesIff(s: System, steps: seq<Step>, route: Route)
    requires Marked(s, route) && Within(s, route)
    ensures AlwaysWithin(s, steps, route) <==> DoublesNone(s, steps, route)
    decreases |steps|
  {
    if steps != [] {
      StepDoublesIff(s, steps[0], route);
      StepKeepsMarked(s, steps[0], route);
      if Within(Next(s, steps[0]), route) {
        RunDoublesIff(Next(s, steps[0]), steps[1..], route);
      }
    }
  }

  lemma InitIsMarked(relays: nat, workers: nat, route: Route)
    ensures Marked(Init(relays, workers), route) && Within(Init(relays, workers), route)
  {
    BetweenInit(relays, route);
    assert Enqueued(Init(relays, workers), route) == {};
  }

  /**
   * Any number of relays, workers and crashes: a run stays within one message and its crashes at every moment if and
   * only if no relay enqueues for a route that is marked already or about to be marked by another relay.
   */
  lemma StaysWithinIff(relays: nat, workers: nat, steps: seq<Step>, route: Route)
    ensures AlwaysWithin(Init(relays, workers), steps, route) <==> DoublesNone(Init(relays, workers), steps, route)
  {
    InitIsMarked(relays, workers, route);
    RunDoublesIff(Init(relays, workers), steps, route);
  }

  lemma {:induction false} WithinAtTheEnd(s: System, steps: seq<Step>, route: Route)
    requires AlwaysWithin(s, steps, route)
    ensures Within(After(s, steps), route)
    decreases |steps|
  {
    if steps != [] {
      WithinAtTheEnd(Next(s, steps[0]), steps[1..], route);
    }
  }

  // ---- One relay at a time for an event and consumer ----

  /** The relay still has the event on its list, for this consumer. */
  predicate Lists(relay: Relay, route: Route) {
    relay.Relaying? && relay.consumer == route.1 && route.0 in relay.todo
  }

  /** At most one relay has the event on its list for this consumer. */
  ghost predicate OneLister(s: System, route: Route) {
    forall a, b :: 0 <= a < b < |s.relays| ==> !(Lists(s.relays[a], route) && Lists(s.relays[b], route))
  }

  /** That holds at every moment of the run. */
  ghost predicate NeverOverlaps(s: System, steps: seq<Step>, route: Route)
    decreases |steps|
  {
    OneLister(s, route) && (steps != [] ==> NeverOverlaps(Next(s, steps[0]), steps[1..], route))
  }

  /** Who is about to enqueue or mark the route finds no mark. */
  ghost predicate Clear(s: System, route: Route) {
    forall r :: 0 <= r < |s.relays| && Heads(s.relays[r], route) ==> route !in s.deliveries
  }

  /** The relay is between its check of the route and its delivery mark. */
  predicate Heads(relay: Relay, route: Route) {
    relay.Relaying? && relay.todo != [] && (relay.todo[0], relay.consumer) == route
    && (relay.point.Enqueueing? || relay.point.Delivering?)
  }

  lemma StartKeepsClear(s: System, r: nat, tenant: string, consumer: string, queue: string, todo: seq<string>,
                        route: Route)
    requires Clear(s, route)
    ensures Clear(RelayStart(s, r, tenant, consumer, queue, todo), route)
  {
  }

  lemma CheckKeepsClear(s: System, r: nat, route: Route)
    requires Clear(s, route)
    ensures Clear(RelayCheck(s, r), route)
  {
  }

  lemma EnqueueKeepsClear(s: System, r: nat, id: string, now: int, route: Route)
    requires Clear(s, route)
    ensures Clear(RelayEnqueue(s, r, id, now), route)
  {
    if AtEvent(s, r) && s.relays[r].point.Enqueueing? {
      assert Heads(s.relays[r], RouteAt(s, r));
    }
  }

  lemma PublishKeepsClear(s: System, r: nat, route: Route)
    requires Clear(s, route)
    ensures Clear(RelayPublish(s, r), route)
  {
  }

  lemma StopKeepsClear(s: System, r: nat, route: Route)
    requires Clear(s, route)
    ensures Clear(RelayStop(s, r), route)
  {
  }

  lemma DeliverKeepsClear(s: System, r: nat, route: Route)
    requires Clear(s, route) && OneLister(s, route)
    ensures Clear(RelayDeliver(s, r), route)
  {
    if AtEvent(s, r) && s.relays[r].point.Delivering? {
      var s' := RelayDeliver(s, r);
      assert Heads(s.relays[r], RouteAt(s, r));
      forall v | 0 <= v < |s'.relays| && Heads(s'.relays[v], route) ensures route !in s'.deliveries {
        assert v != r && s'.relays[v] == s.relays[v];
        if RouteAt(s, r) == route {
          assert Lists(s.relays[v], route) && Lists(s.relays[r], route);
        }
      }
    }
  }

  lemma StepKeepsClear(s: System, step: Step, route: Route)
    requires Clear(s, route) && OneLister(s, route)
    ensures Clear(Next(s, step), route)
  {
    match step
    case RelayStartStep(r, t, c, q, todo) => StartKeepsClear(s, r, t, c, q, todo, route);
    case RelayCheckStep(r) => CheckKeepsClear(s, r, route);
    case RelayEnqueueStep(r, id, now) => EnqueueKeepsClear(s, r, id, now, route);
    case RelayDeliverStep(r) => DeliverKeepsClear(s, r, route);
    case RelayPublishStep(r) => PublishKeepsClear(s, r, route);
    case RelayStopStep(r) => StopKeepsClear(s, r, route);
    case _ => OthersAreQuiet(s, step);
  }

  /** A relay about to enqueue has seen no mark, and there is no other relay to mark. */
  lemma ClearDoublesNot(s: System, step: Step, route: Route)
    requires Clear(s, route) && OneLister(s, route)
    ensures !Doubles(s, step, route)
  {
    if Enqueues(s, step, route) {
      assert Heads(s.relays[step.r], route) && Lists(s.relays[step.r], route);
      forall q | 0 <= q < |s.relays| ensures !Pausing(s.relays[q], route) {
        assert Pausing(s.relays[q], route) ==> q != step.r && Lists(s.relays[q], route);
      }
    }
  }

  lemma {:induction false} ClearRunDoublesNone(s: System, steps: seq<Step>, route: Route)
    requires Clear(s, route) && NeverOverlaps(s, steps, route)
    ensures DoublesNone(s, steps, route)
    decreases |steps|
  {
    if steps != [] {
      ClearDoublesNot(s, steps[0], route);
      StepKeepsClear(s, steps[0], route);
      ClearRunDoublesNone(Next(s, steps[0]), steps[1..], route);
    }
  }

  /** In particular, as long as no two relays have the event on their lists for the same consumer at once. */
  lemma OneMessagePlusCrashes(relays: nat, workers: nat, steps: seq<Step>, route: Route)
    requires NeverOverlaps(Init(relays, workers), steps, route)
    ensures DoublesNone(Init(relays, workers), steps, route)
    ensures var s := After(Init(relays, workers), steps);
            |Enqueued(s, route)| <= 1 + s.crashed[route]
  {
    ClearRunDoublesNone(Init(relays, workers), steps, route);
    StaysWithinIff(relays, workers, steps, route);
    WithinAtTheEnd(Init(relays, workers), steps, route);
  }

  /** No two relays of the same tenant and consumer are active. */
  ghost predicate Apart(s: System) {
    forall a, b :: 0 <= a < b < |s.relays| && s.relays[a].Relaying? && s.relays[b].Relaying? ==>
      s.relays[a].tenant != s.relays[b].tenant || s.relays[a].consumer != s.relays[b].consumer
  }

  ghost predicate AlwaysApart(s: System, steps: seq<Step>)
    decreases |steps|
  {
    Apart(s) && (steps != [] ==> AlwaysApart(Next(s, steps[0]), steps[1..]))
  }

  /** A relay lists events of its tenant only, so relays that are apart never overlap. */
  lemma ApartNeverLists(s: System, route: Route)
    requires Inv(s) && Apart(s)
    ensures OneLister(s, route)
  {
    forall a, b | 0 <= a < b < |s.relays| ensures !(Lists(s.relays[a], route) && Lists(s.relays[b], route)) {
      assert RelayOk(s, s.relays[a]) && RelayOk(s, s.relays[b]);
    }
  }

  lemma {:induction false} ApartNeverOverlaps(s: System, steps: seq<Step>, route: Route)
    requires Inv(s) && AlwaysApart(s, steps)
    ensures NeverOverlaps(s, steps, route)
    decreases |steps|
  {
    ApartNeverLists(s, route);
    if steps != [] {
      NextKeepsInv(s, steps[0]);
      ApartNeverOverlaps(Next(s, steps[0]), steps[1..], route);
    }
  }

  /**
   * In particular, any number of requests may run at once as long as no two are of the same tenant and consumer: then
   * every event and consumer gets at most one message plus its crashes.
   */
  lemma ApartRelaysSendOnce(relays: nat, workers: nat, steps: seq<Step>, route: Route)
    requires AlwaysApart(Init(relays, workers), steps)
    ensures var s := After(Init(relays, workers), steps);
            |Enqueued(s, route)| <= 1 + s.crashed[route]
  {
    InitInv(relays, workers);
    ApartNeverOverlaps(Init(relays, workers), steps, route);
    OneMessagePlusCrashes(relays, workers, steps, route);
  }

  // ---- Published events ----

  /** The event is published, and no active relay has it on its list any more. */
  ghost predicate Done(s: System, e: string) {
    && e in s.events && s.events[e].published
    && forall r :: 0 <= r < |s.relays| && s.relays[r].Relaying? ==> e !in s.relays[r].todo
  }

  lemma StartKeepsDone(s: System, r: nat, tenant: string, consumer: string, queue: string, todo: seq<string>, e: string)
    requires Done(s, e)
    ensures Done(RelayStart(s, r, tenant, consumer, queue, todo), e)
  {
    var s' := RelayStart(s, r, tenant, consumer, queue, todo);
    if s' != s {
      assert forall i :: 0 <= i < |todo| ==> todo[i] in s.events && !s.events[todo[i]].published;
    }
  }

  lemma MoveKeepsDone(s: System, r: nat, id: string, now: int, e: string)
    requires Done(s, e)
    ensures Done(RelayCheck(s, r), e) && Done(RelayEnqueue(s, r, id, now), e)
  {
  }

  lemma DeliverKeepsDone(s: System, r: nat, e: string)
    requires Done(s, e)
    ensures Done(RelayDeliver(s, r), e)
  {
    if AtEvent(s, r) && s.relays[r].point.Delivering? {
      RelayDeliverMoves(s, r);
    }
  }

  lemma StopKeepsDone(s: System, r: nat, e: string)
    requires Done(s, e)
    ensures Done(RelayStop(s, r), e)
  {
  }

  lemma PublishKeepsDone(s: System, r: nat, e: string)
    requires Done(s, e)
    ensures Done(RelayPublish(s, r), e)
  {
  }

  lemma AppendKeepsDone(s: System, jobId: string, eventId: string, e: string)
    requires Done(s, e)
    ensures Done(AppendEvent(s, jobId, eventId), e)
  {
  }

  lemma OthersKeepDone(s: System, step: Step, e: string)
    requires Done(s, e) && !IsRelayStep(step) && !step.AppendStep?
    ensures Done(Next(s, step), e)
  {
    OthersAreQuiet(s, step);
    OthersKeepEvents(s, step);
  }

  lemma OthersKeepEvents(s: System, step: Step)
    requires !IsRelayStep(step) && !step.AppendStep?
    ensures Next(s, step).events == s.events
  {
    match step
    case PersistStep(j, t) =>
    case AbandonStep(j) =>
    case CancelStep(j) =>
    case WorkStep(w, act) => WorkKeepsEvents(s, w, act);
    case _ => HandlingKeepsEvents(s, step);
  }

  lemma WorkKeepsEvents(s: System, w: nat, act: Act)
    ensures Work(s, w, act).events == s.events
  {
  }

  lemma HandlingKeepsEvents(s: System, step: Step)
    requires !IsRelayStep(step) && !IsJobStep(step) && !step.WorkStep?
    ensures Next(s, step).events == s.events
  {
    match step
    case DequeueStep(w, id) =>
    case SettleStep(w, ms, now) => SettleKeepsEvents(s, w, ms, now);
    case WorkerCrashStep(w) =>
    case DequeueCutStep(w, id) =>
    case NackCutStep(w) =>
  }

  lemma SettleKeepsEvents(s: System, w: nat, delayMs: int, now: int)
    ensures Settle(s, w, delayMs, now).events == s.events
  {
  }

  lemma StepKeepsDone(s: System, step: Step, e: string)
    requires Done(s, e)
    ensures Done(Next(s, step), e)
  {
    match step
    case RelayStartStep(r, t, c, q, todo) => StartKeepsDone(s, r, t, c, q, todo, e);
    case RelayCheckStep(r) => MoveKeepsDone(s, r, "", 0, e);
    case RelayEnqueueStep(r, id, now) => MoveKeepsDone(s, r, id, now, e);
    case RelayDeliverStep(r) => DeliverKeepsDone(s, r, e);
    case RelayPublishStep(r) => PublishKeepsDone(s, r, e);
    case RelayStopStep(r) => StopKeepsDone(s, r, e);
    case AppendStep(j, id) => AppendKeepsDone(s, j, id, e);
    case _ => OthersKeepDone(s, step, e);
  }

  /** Once an event is published and off all lists, no consumer ever gets another message for it. */
  lemma {:induction false} PublishedIsDone(s: System, steps: seq<Step>, e: string, consumer: string)
    requires Done(s, e)
    ensures |Enqueued(After(s, steps), (e, consumer))| == |Enqueued(s, (e, consumer))|
    decreases |steps|
  {
    if steps != [] {
      StepKeepsDone(s, steps[0], e);
      OnlyEnqueuesAdd(s, steps[0], (e, consumer));
      PublishedIsDone(Next(s, steps[0]), steps[1..], e, consumer);
    }
  }

  // ---- Delivery records ----

  lemma DeliveryStays(s: System, step: Step, route: Route)
    requires route in s.deliveries
    ensures route in Next(s, step).deliveries && Next(s, step).deliveries[route] == s.deliveries[route]
  {
    if !IsRelayStep(step) {
      OthersAreQuiet(s, step);
    }
  }

  /** The first delivery mark of a route is final: no later step replaces or removes it. */
  lemma {:induction false} DeliveryIsFinal(s: System, steps: seq<Step>, route: Route)
    requires route in s.deliveries
    ensures route in After(s, steps).deliveries && After(s, steps).deliveries[route] == s.deliveries[route]
    decreases |steps|
  {
    if steps != [] {
      DeliveryStays(s, steps[0], route);
      DeliveryIsFinal(Next(s, steps[0]), steps[1..], route);
    }
  }

  /** The stored key of a delivery record. */
  function DeliveryKey(tenant: string, eventId: string, consumer: string): string {
    tenant + ":" + eventId + ":" + consumer
  }

  /** Tenant and event ids without colons make the stored key stand for one route. */
  lemma DeliveryKeyInjective(t1: string, e1: string, c1: string, t2: string, e2: string, c2: string)
    requires ColonFree(t1) && ColonFree(t2) && ColonFree(e1) && ColonFree(e2)
    requires DeliveryKey(t1, e1, c1) == DeliveryKey(t2, e2, c2)
    ensures t1 == t2 && e1 == e2 && c1 == c2
  {
    assert t1 + ":" + (e1 + ":" + c1) == DeliveryKey(t1, e1, c1);
    assert t2 + ":" + (e2 + ":" + c2) == DeliveryKey(t2, e2, c2);
    FirstColon(t1, e1 + ":" + c1, t2, e2 + ":" + c2);
    FirstColon(e1, c1, e2, c2);
  }

  lemma FirstColon(a: string, x: string, b: string, y: string)
    requires ColonFree(a) && ColonFree(b) && a + ":" + x == b + ":" + y
    ensures a == b && x == y
  {
    var k := a + ":" + x;
    assert k == a + ":" + x && k == b + ":" + y;
    NoColonBefore(k, |a|, |b|);
    NoColonBefore(k, |b|, |a|);
    assert k[..|a|] == a && k[..|b|] == b && k[|a| + 1..] == x && k[|b| + 1..] == y;
  }

  lemma NoColonBefore(k: string, n: nat, m: nat)
    requires n < |k| && m < |k| && k[n] == ':' && ColonFree(k[..m])
    ensures m <= n
  {
    assert forall i :: 0 <= i < m ==> k[..m][i] == k[i];
  }
}
