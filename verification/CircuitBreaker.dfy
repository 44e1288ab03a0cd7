/** Calling tools behind a circuit breaker: retries, failure counting, opening and resetting. */
module CircuitBreaker {
  import opened Basics

  datatype Policy = Policy(retryMax: nat, threshold: nat, resetS: nat)

  /** The policy read from the environment, clamped. */
  function FromEnv(retryMax: int, threshold: int, resetS: int): (p: Policy)
    ensures p.threshold >= 1 && (threshold >= 1 ==> p.threshold == threshold) && (threshold < 1 ==> p.threshold == 1)
    ensures p.resetS >= 1 && (resetS >= 1 ==> p.resetS == resetS) && (resetS < 1 ==> p.resetS == 1)
    ensures (retryMax >= 0 ==> p.retryMax == retryMax) && (retryMax < 0 ==> p.retryMax == 0)
  {
    Policy(Max(0, retryMax), Max(1, threshold), Max(1, resetS))
  }

  datatype Circuit = Circuit(failures: nat, openedAt: Option<int>)

  const FRESH := Circuit(0, None)

  /** What one invocation of the tool comes to. */
  datatype Outcome = Returned(valid: bool) | TimedOut | RaisedApi(retryable: bool, code: string) | RaisedOther

  datatype Error = ToolDisabled | InputInvalid | CircuitOpen | OutputInvalid | Api(code: string) | Timeout
    | ExecutionFailed

  /**
   * One call: whether policy and input let it through, when the circuit is looked at, and for each attempt its outcome
   * and the time at which a failure of it is recorded.
   */
  datatype Call = Call(enabled: bool, validInput: bool, checkAt: int, outcomes: nat -> Outcome, times: nat -> int)

  /** What the breaker records about a tool. */
  datatype Event = Failed(at: int) | Succeeded | WasReset

  datatype Effect = Effect(circuit: Circuit, events: seq<Event>, invocations: nat, result: Result<(), Error>)

  // ---- One call ----

  function Checked(c: Circuit, p: Policy, now: int): Circuit {
    if c.openedAt.Some? && now - c.openedAt.value >= p.resetS then FRESH else c
  }

  function Failing(c: Circuit, p: Policy, now: int): Circuit {
    Circuit(c.failures + 1, if c.failures + 1 >= p.threshold then Some(now) else c.openedAt)
  }

  function Attempts(c: Circuit, call: Call, p: Policy, i: nat, sawTimeout: bool): Effect
    decreases p.retryMax + 1 - i
  {
    if i > p.retryMax then Effect(c, [], 0, Err(if sawTimeout then Timeout else ExecutionFailed))
    else
      var o := call.outcomes(i);
      if o.Returned? then
        if o.valid then Effect(FRESH, [Succeeded], 1, Ok(())) else Effect(c, [], 1, Err(OutputInvalid))
      else if o.RaisedApi? && !o.retryable then Effect(c, [], 1, Err(Api(o.code)))
      else
        var e := Attempts(Failing(c, p, call.times(i)), call, p, i + 1, sawTimeout || o.TimedOut?);
        Effect(e.circuit, [Failed(call.times(i))] + e.events, e.invocations + 1, e.result)
  }

  function Executed(c: Circuit, call: Call, p: Policy): Effect {
    if !call.enabled then Effect(c, [], 0, Err(ToolDisabled))
    else if !call.validInput then Effect(c, [], 0, Err(InputInvalid))
    else
      var c' := Checked(c, p, call.checkAt);
      if c'.openedAt.Some? then Effect(c', [], 0, Err(CircuitOpen))
      else
        var e := Attempts(c', call, p, 0, false);
        e.(events := (if c.openedAt.Some? then [WasReset] else []) + e.events)
  }

  class ToolsRegistry {
    var circuits: map<string, Circuit>

    constructor ()
      ensures circuits == map[]
    {
      circuits := map[];
    }

    function StateOf(name: string): Circuit
      reads this
    {
      if name in circuits then circuits[name] else FRESH
    }

    twostate predicate OthersKept(name: string)
      reads this
    {
      forall other :: other != name ==> StateOf(other) == old(StateOf(other))
    }

    method CircuitState(name: string) returns (state: Circuit)
      modifies this
      ensures state == StateOf(name) == old(StateOf(name)) && OthersKept(name)
    {
      if name !in circuits {
        circuits := circuits[name := FRESH];
      }
      state := circuits[name];
    }

    method IsCircuitOpen(name: string, p: Policy, now: int) returns (open: bool)
      modifies this
      ensures StateOf(name) == Checked(old(StateOf(name)), p, now) && OthersKept(name)
      ensures open <==> StateOf(name).openedAt.Some?
    {
      var state := CircuitState(name);
      if state.openedAt.None? {
        return false;
      }
      if now - state.openedAt.value >= p.resetS {
        circuits := circuits[name := Circuit(0, None)];
        return false;
      }
      return true;
    }

    method RecordFailure(name: string, p: Policy, now: int)
      modifies this
      ensures StateOf(name) == Failing(old(StateOf(name)), p, now) && OthersKept(name)
    {
      var state := CircuitState(name);
      state := state.(failures := state.failures + 1);
      if state.failures >= p.threshold {
        state := state.(openedAt := Some(now));
      }
      circuits := circuits[name := state];
    }

    method RecordSuccess(name: string)
      modifies this
      ensures StateOf(name) == FRESH && OthersKept(name)
    {
      var state := CircuitState(name);
      circuits := circuits[name := state.(failures := 0, openedAt := None)];
    }

    method ExecuteTool(name: string, call: Call, p: Policy) returns (result: Result<(), Error>, invocations: nat)
      modifies this
      ensures var e := Executed(old(StateOf(name)), call, p);
              StateOf(name) == e.circuit && result == e.result && invocations == e.invocations
      ensures OthersKept(name)
    {
      invocations := 0;
      if !call.enabled {
        return Err(ToolDisabled), 0;
      }
      if !call.validInput {
        return Err(InputInvalid), 0;
      }
      var open := IsCircuitOpen(name, p, call.checkAt);
      if open {
        return Err(CircuitOpen), 0;
      }
      ghost var start := StateOf(name);
      var sawTimeout := false;
      for i := 0 to p.retryMax + 1
        invariant invocations == i && OthersKept(name)
        invariant var rest := Attempts(StateOf(name), call, p, i, sawTimeout);
                  var all := Attempts(start, call, p, 0, false);
                  all.circuit == rest.circuit && all.result == rest.result && all.invocations == i + rest.invocations
      {
        invocations := invocations + 1;
        var outcome := call.outcomes(i);
        if outcome.Returned? {
          if !outcome.valid {
            return Err(OutputInvalid), invocations;
          }
          RecordSuccess(name);
          return Ok(()), invocations;
        }
        if outcome.RaisedApi? && !outcome.retryable {
          return Err(Api(outcome.code)), invocations;
        }
        RecordFailure(name, p, call.times(i));
        sawTimeout := sawTimeout || outcome.TimedOut?;
      }
      result := Err(if sawTimeout then Timeout else ExecutionFailed);
    }
  }

  // ---- What a call comes to, said of its outcomes alone ----

  /** An outcome after which the tool is not tried again. */
  predicate Final(o: Outcome) {
    o.Returned? || (o.RaisedApi? && !o.retryable)
  }

  /** The first n outcomes from i on were all retried, and then one was final or no retry was left. */
  ghost predicate StopsAt(call: Call, p: Policy, i: nat, n: nat) {
    && i <= n <= p.retryMax + 1 && (forall j: nat :: i <= j < n ==> !Final(call.outcomes(j)))
    && (n <= p.retryMax ==> Final(call.outcomes(n)))
  }

  ghost predicate SomeTimedOut(call: Call, i: nat, n: nat) {
    exists j: nat :: i <= j < n && call.outcomes(j).TimedOut?
  }

  /** The answer to the final outcome, or to running out of retries. */
  ghost function Answer(call: Call, p: Policy, n: nat, timedOut: bool): Result<(), Error> {
    if n > p.retryMax then Err(if timedOut then Timeout else ExecutionFailed)
    else
      match call.outcomes(n)
      case Returned(valid) => if valid then Ok(()) else Err(OutputInvalid)
      case RaisedApi(_, code) => Err(Api(code))
      case _ => Err(ExecutionFailed)
  }

  lemma {:induction false} AttemptsAre(c: Circuit, call: Call, p: Policy, i: nat, sawTimeout: bool) returns (n: nat)
    requires i <= p.retryMax + 1
    ensures StopsAt(call, p, i, n)
    ensures var e := Attempts(c, call, p, i, sawTimeout);
            && e.invocations == (if n <= p.retryMax then n + 1 else n) - i
            && e.result == Answer(call, p, n, sawTimeout || SomeTimedOut(call, i, n))
            && |e.events| == n - i + (if n <= p.retryMax && call.outcomes(n) == Returned(true) then 1 else 0)
            && (forall j: nat :: j < n - i ==> e.events[j] == Failed(call.times(i + j)))
            && (|e.events| > n - i ==> e.events[n - i] == Succeeded)
    decreases p.retryMax + 1 - i
  {
    if i > p.retryMax || Final(call.outcomes(i)) {
      n := i;
    } else {
      var o := call.outcomes(i);
      n := AttemptsAre(Failing(c, p, call.times(i)), call, p, i + 1, sawTimeout || o.TimedOut?);
      assert SomeTimedOut(call, i, n) <==> o.TimedOut? || SomeTimedOut(call, i + 1, n);
      var rest := Attempts(Failing(c, p, call.times(i)), call, p, i + 1, sawTimeout || o.TimedOut?).events;
      assert Attempts(c, call, p, i, sawTimeout).events == [Failed(call.times(i))] + rest;
    }
  }

  /**
   * A call that is let through tries the tool again after every failure that may pass, until an outcome is final or the
   * retries are used up; its answer, the number of its attempts and the failures it records follow from that outcome.
   */
  lemma CallIs(c: Circuit, call: Call, p: Policy) returns (n: nat)
    requires call.enabled && call.validInput
    requires c.openedAt.Some? ==> call.checkAt >= c.openedAt.value + p.resetS
    ensures StopsAt(call, p, 0, n)
    ensures var e := Executed(c, call, p);
            var before := if c.openedAt.Some? then 1 else 0;
            && e.invocations == (if n <= p.retryMax then n + 1 else n)
            && e.result == Answer(call, p, n, SomeTimedOut(call, 0, n))
            && |e.events| == before + n + (if e.result.Ok? then 1 else 0)
            && (forall j: nat :: j < n ==> e.events[before + j] == Failed(call.times(j)))
  {
    n := AttemptsAre(Checked(c, p, call.checkAt), call, p, 0, false);
  }

  /** Why a call is not let through. */
  lemma RefusalIs(c: Circuit, call: Call, p: Policy)
    ensures var e := Executed(c, call, p);
            && (!call.enabled ==> e.result == Err(ToolDisabled))
            && (call.enabled && !call.validInput ==> e.result == Err(InputInvalid))
            && (call.enabled && call.validInput && c.openedAt.Some? && call.checkAt < c.openedAt.value + p.resetS ==>
                  e.result == Err(CircuitOpen))
            && (e.invocations == 0 ==> e.circuit.openedAt == c.openedAt && e.events == [] && e.result.Err?)
  {
    if call.enabled && call.validInput {
      AttemptsAreBounded(Checked(c, p, call.checkAt), call, p, 0, false);
    }
  }

  // ---- The state is a function of the recorded history ----

  /** Failures since the last success or reset. */
  function Streak(events: seq<Event>): nat {
    if events == [] || !events[|events| - 1].Failed? then 0 else Streak(events[..|events| - 1]) + 1
  }

  function LastFailure(events: seq<Event>): int
    requires Streak(events) > 0
  {
    events[|events| - 1].at
  }

  /**
   * The counter is the streak, and the circuit is open since the last failure when the streak reached the threshold.
   */
  ghost predicate Reflects(c: Circuit, events: seq<Event>, p: Policy) {
    && c.failures == Streak(events)
    && c.openedAt == if Streak(events) >= p.threshold > 0 then Some(LastFailure(events)) else None
  }

  lemma FailureReflects(c: Circuit, events: seq<Event>, p: Policy, now: int)
    requires Reflects(c, events, p) && p.threshold >= 1
    ensures Reflects(Failing(c, p, now), events + [Failed(now)], p)
  {
    assert (events + [Failed(now)])[..|events|] == events;
  }

  lemma {:induction false} AttemptsReflect(c: Circuit, events: seq<Event>, call: Call, p: Policy, i: nat,
                                           sawTimeout: bool)
    requires Reflects(c, events, p) && p.threshold >= 1
    ensures var e := Attempts(c, call, p, i, sawTimeout); Reflects(e.circuit, events + e.events, p)
    decreases p.retryMax + 1 - i
  {
    var e := Attempts(c, call, p, i, sawTimeout);
    if i <= p.retryMax && !call.outcomes(i).Returned? && !(call.outcomes(i).RaisedApi? && !call.outcomes(i).retryable) {
      var now := call.times(i);
      FailureReflects(c, events, p, now);
      var timedOut := sawTimeout || call.outcomes(i).TimedOut?;
      AttemptsReflect(Failing(c, p, now), events + [Failed(now)], call, p, i + 1, timedOut);
      var rest := Attempts(Failing(c, p, now), call, p, i + 1, timedOut);
      assert events + [Failed(now)] + rest.events == events + ([Failed(now)] + rest.events);
    } else {
      assert e.events == [] ==> events + e.events == events;
    }
  }

  lemma CallReflects(c: Circuit, events: seq<Event>, call: Call, p: Policy)
    requires Reflects(c, events, p) && p.threshold >= 1
    ensures var e := Executed(c, call, p); Reflects(e.circuit, events + e.events, p)
  {
    var e := Executed(c, call, p);
    var c' := Checked(c, p, call.checkAt);
    if call.enabled && call.validInput && c'.openedAt.None? {
      var reset := if c.openedAt.Some? then [WasReset] else [];
      assert Reflects(c', events + reset, p) by {
        assert reset == [] ==> events + reset == events;
      }
      AttemptsReflect(c', events + reset, call, p, 0, false);
      var rest := Attempts(c', call, p, 0, false);
      assert events + reset + rest.events == events + (reset + rest.events);
    } else {
      assert events + e.events == events;
    }
  }

  // ---- Runs of calls on one tool ----

  datatype Run = Run(circuit: Circuit, events: seq<Event>)

  function After(r: Run, calls: seq<Call>, p: Policy): Run
    decreases |calls|
  {
    if calls == [] then r
    else
      var e := Executed(r.circuit, calls[0], p);
      After(Run(e.circuit, r.events + e.events), calls[1..], p)
  }

  const START := Run(FRESH, [])

  lemma {:induction false} RunReflects(r: Run, calls: seq<Call>, p: Policy)
    requires Reflects(r.circuit, r.events, p) && p.threshold >= 1
    ensures Reflects(After(r, calls, p).circuit, After(r, calls, p).events, p)
    decreases |calls|
  {
    if calls != [] {
      CallReflects(r.circuit, r.events, calls[0], p);
      var e := Executed(r.circuit, calls[0], p);
      RunReflects(Run(e.circuit, r.events + e.events), calls[1..], p);
    }
  }

  lemma {:induction false} AttemptsAreBounded(c: Circuit, call: Call, p: Policy, i: nat, sawTimeout: bool)
    requires i <= p.retryMax + 1
    ensures var e := Attempts(c, call, p, i, sawTimeout);
            e.invocations <= p.retryMax + 1 - i && e.circuit.failures <= c.failures + e.invocations
    ensures i <= p.retryMax ==> Attempts(c, call, p, i, sawTimeout).invocations >= 1
    decreases p.retryMax + 1 - i
  {
    if i <= p.retryMax {
      AttemptsAreBounded(Failing(c, p, call.times(i)), call, p, i + 1, sawTimeout || call.outcomes(i).TimedOut?);
    }
  }

  /**
   * Bounds every reachable state keeps: the circuit is open exactly at the threshold, and failures never pass it by
   * more than the retries.
   */
  ghost predicate Bounded(c: Circuit, p: Policy) {
    (c.openedAt.Some? <==> c.failures >= p.threshold) && c.failures <= p.threshold + p.retryMax
  }

  lemma {:induction false} RunIsBounded(r: Run, calls: seq<Call>, p: Policy)
    requires Reflects(r.circuit, r.events, p) && Bounded(r.circuit, p) && p.threshold >= 1
    ensures Bounded(After(r, calls, p).circuit, p)
    decreases |calls|
  {
    if calls != [] {
      var e := Executed(r.circuit, calls[0], p);
      CallReflects(r.circuit, r.events, calls[0], p);
      AttemptsAreBounded(Checked(r.circuit, p, calls[0].checkAt), calls[0], p, 0, false);
      RunIsBounded(Run(e.circuit, r.events + e.events), calls[1..], p);
    }
  }

  /** Whatever was called before, failures stay within threshold and retries, and openness is decided by the count. */
  lemma EveryRunIsBounded(calls: seq<Call>, p: Policy)
    requires p.threshold >= 1
    ensures Bounded(After(START, calls, p).circuit, p)
  {
    RunIsBounded(START, calls, p);
  }

  /**
   * After any run, a call invokes the tool exactly when it is enabled, its input is valid, and the history either has
   * fewer failures in a row than the threshold or its last failure is at least the reset time ago; then it does so
   * at most once more than the retries.
   */
  lemma InvokesIff(calls: seq<Call>, call: Call, p: Policy)
    requires p.threshold >= 1
    ensures var r := After(START, calls, p);
            var e := Executed(r.circuit, call, p);
            && e.invocations <= p.retryMax + 1
            && (e.invocations > 0 <==>
                  && call.enabled && call.validInput
                  && (Streak(r.events) < p.threshold || call.checkAt >= LastFailure(r.events) + p.resetS))
  {
    var r := After(START, calls, p);
    RunReflects(START, calls, p);
    AttemptsAreBounded(Checked(r.circuit, p, call.checkAt), call, p, 0, false);
  }

  function Invocations(r: Run, calls: seq<Call>, p: Policy): nat
    decreases |calls|
  {
    if calls == [] then 0
    else
      var e := Executed(r.circuit, calls[0], p);
      e.invocations + Invocations(Run(e.circuit, r.events + e.events), calls[1..], p)
  }

  /** Once open, the tool is left alone by every later call that looks before the reset time has passed. */
  lemma {:induction false} OpenMeansNoInvocations(r: Run, calls: seq<Call>, p: Policy)
    requires r.circuit.openedAt.Some?
    requires forall i :: 0 <= i < |calls| ==> calls[i].checkAt - r.circuit.openedAt.value < p.resetS
    ensures Invocations(r, calls, p) == 0 && After(r, calls, p) == r
    decreases |calls|
  {
    if calls != [] {
      assert calls[0].checkAt - r.circuit.openedAt.value < p.resetS;
      assert r.events + [] == r.events;
      OpenMeansNoInvocations(r, calls[1..], p);
    }
  }
}
