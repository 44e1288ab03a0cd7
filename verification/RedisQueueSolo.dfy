/** What one Redis operation comes to when no other process runs between its commands: the in-memory queue's answer. */
module RedisQueueSolo {
  import opened Basics
  import opened RedisQueue
  import opened RedisQueueSafety

  /** The process issues its next n commands, all at the same time. */
  function Issued(s: System, p: nat, now: int, n: nat): System
    decreases n
  {
    if n == 0 then s else Issued(Next(s, Issue(p, now)), p, now, n - 1)
  }

  predicate Due(s: System, id: string, now: int) {
    id in s.msgs && s.msgs[id].availableAt <= now
  }

  /** Everything but the list of one key, and the given process, is as before. */
  ghost predicate SameBut(s: System, s': System, p: nat, key: string) {
    && p < |s.procs| == |s'.procs|
    && (forall q :: 0 <= q < |s.procs| && q != p ==> s'.procs[q] == s.procs[q])
    && (forall k :: k != key ==> List(s'.pending, k) == List(s.pending, k))
    && s'.index == s.index
  }

  // ---- Dequeue ----

  /** A head that is not due goes to the back of its list, and one less is left to scan. */
  lemma Rotate(s: System, p: nat, o: Owner, left: nat, now: int)
    requires p < |s.procs| && s.procs[p].pc == Pop(o, left) && left > 0
    requires var l := List(s.pending, Key(o)); l != [] && l[0] in s.msgs && !Due(s, l[0], now)
    ensures var l, s' := List(s.pending, Key(o)), Issued(s, p, now, 3);
            && SameBut(s, s', p, Key(o)) && s'.msgs == s.msgs && s'.inflight == s.inflight
            && List(s'.pending, Key(o)) == l[1..] + [l[0]]
            && s'.procs[p] == Process(s.procs[p].held, Pop(o, left - 1))
  {
    var l := List(s.pending, Key(o));
    var s1 := Command(s, p, now);
    assert s1.procs[p] == Process(s.procs[p].held, Load(o, left, l[0])) && s1.msgs == s.msgs;
    var s2 := Command(s1, p, now);
    assert s2 == Goto(s1, p, PushBack(o, left, l[0]));
    var s3 := Command(s2, p, now);
    assert Issued(s, p, now, 3) == Issued(s1, p, now, 2) == Issued(s2, p, now, 1) == s3;
  }

  /** A due head is taken: marked in flight, added to the set, and held. */
  lemma Take(s: System, p: nat, o: Owner, left: nat, now: int)
    requires p < |s.procs| && s.procs[p].pc == Pop(o, left) && left > 0
    requires var l := List(s.pending, Key(o)); l != [] && Due(s, l[0], now)
    ensures var l, s' := List(s.pending, Key(o)), Issued(s, p, now, 4);
            && SameBut(s, s', p, Key(o))
            && List(s'.pending, Key(o)) == l[1..]
            && Handed(s, s', p, Key(o), l[0])
  {
    var l := List(s.pending, Key(o));
    var s1 := Next(s, Issue(p, now));
    assert s1.procs[p] == Process(s.procs[p].held, Load(o, left, l[0])) && s1.msgs == s.msgs;
    var s2 := Next(s1, Issue(p, now));
    assert s2 == Goto(s1, p, MarkInFlight(o, l[0], s.msgs[l[0]].(status := InFlight)));
    TakeWrites(s2, p, o, l[0], now);
    IssuedMore(s, p, now, 2, 2);
    assert Issued(s, p, now, 2) == Issued(s1, p, now, 1) == s2;
  }

  lemma TakeWrites(s: System, p: nat, o: Owner, id: string, now: int)
    requires p < |s.procs| && id in s.msgs && s.procs[p].pc == MarkInFlight(o, id, s.msgs[id].(status := InFlight))
    ensures var s' := Issued(s, p, now, 2);
            SameBut(s, s', p, Key(o)) && s'.pending == s.pending && Handed(s, s', p, Key(o), id)
  {
    var s1 := Next(s, Issue(p, now));
    assert s1.procs[p] == Process(s.procs[p].held, AddInFlight(o, id));
    var s2 := Next(s1, Issue(p, now));
    assert Issued(s, p, now, 2) == Issued(s1, p, now, 1) == s2;
  }

  /** The message is in flight in the set of its key and held by the process, which is idle again. */
  ghost predicate Handed(s: System, s': System, p: nat, key: string, id: string)
    requires p < |s.procs| && p < |s'.procs| && id in s.msgs
  {
    && s'.msgs == s.msgs[id := s.msgs[id].(status := InFlight)]
    && s'.inflight == s.inflight[key := InSet(s.inflight, key) + {id}]
    && s'.procs[p] == Process(s.procs[p].held + {id}, Idle)
  }

  lemma {:induction false} IssuedMore(s: System, p: nat, now: int, a: nat, b: nat)
    ensures Issued(s, p, now, a + b) == Issued(Issued(s, p, now, a), p, now, b)
    decreases a
  {
    if a > 0 {
      IssuedMore(Next(s, Issue(p, now)), p, now, a - 1, b);
    }
  }

  /** Moving the head to the back and taking out position i - 1 is taking out position i. */
  lemma RotateOnce(l: seq<string>, i: nat)
    requires 0 < i <= |l|
    ensures var r := l[1..] + [l[0]];
            && (forall j :: 0 <= j < |l| - 1 ==> r[j] == l[j + 1])
            && r[i - 1..] + r[..i - 1] == l[i..] + l[..i]
            && (i < |l| ==> r[i..] + r[..i - 1] == l[i + 1..] + l[..i])
  {
  }

  /** The scan hands out the first due message among those left, and leaves the others rotated behind it. */
  lemma {:induction false} ScanFinds(s: System, p: nat, o: Owner, left: nat, now: int, i: nat) returns (n: nat)
    requires p < |s.procs| && s.procs[p].pc == Pop(o, left)
    requires i < left <= |List(s.pending, Key(o))| && Due(s, List(s.pending, Key(o))[i], now)
    requires forall j :: 0 <= j < i ==> List(s.pending, Key(o))[j] in s.msgs && !Due(s, List(s.pending, Key(o))[j], now)
    ensures var l, s' := List(s.pending, Key(o)), Issued(s, p, now, n);
            && SameBut(s, s', p, Key(o))
            && List(s'.pending, Key(o)) == l[i + 1..] + l[..i]
            && Handed(s, s', p, Key(o), l[i])
    decreases i
  {
    var l := List(s.pending, Key(o));
    if i == 0 {
      Take(s, p, o, left, now);
      n := 4;
      assert l[1..] + l[..0] == l[1..];
    } else {
      Rotate(s, p, o, left, now);
      var s1 := Issued(s, p, now, 3);
      var l1 := List(s1.pending, Key(o));
      n := ScanFinds(s1, p, o, left - 1, now, i - 1);
      IssuedMore(s, p, now, 3, n);
      RotateOnce(l, i);
      n := 3 + n;
    }
  }

  /** When none of those left is due the scan ends empty-handed, having rotated them all. */
  lemma {:induction false} ScanFails(s: System, p: nat, o: Owner, left: nat, now: int) returns (n: nat)
    requires p < |s.procs| && s.procs[p].pc == Pop(o, left)
    requires var l := List(s.pending, Key(o));
             left <= |l| && forall j :: 0 <= j < left ==> l[j] in s.msgs && !Due(s, l[j], now)
    ensures var l, s' := List(s.pending, Key(o)), Issued(s, p, now, n);
            && SameBut(s, s', p, Key(o)) && s'.msgs == s.msgs && s'.inflight == s.inflight
            && List(s'.pending, Key(o)) == l[left..] + l[..left]
            && s'.procs[p] == Process(s.procs[p].held, Idle)
    decreases left
  {
    var l := List(s.pending, Key(o));
    if left == 0 {
      n := 1;
      assert Issued(s, p, now, 1) == Command(s, p, now) == Goto(s, p, Idle);
      assert l[0..] + l[..0] == l;
    } else {
      Rotate(s, p, o, left, now);
      var s1 := Issued(s, p, now, 3);
      var l1 := List(s1.pending, Key(o));
      n := ScanFails(s1, p, o, left - 1, now);
      IssuedMore(s, p, now, 3, n);
      RotateOnce(l, left);
      n := 3 + n;
    }
  }

  /** The state a dequeue leaves when nobody interferes: the in-memory queue's rotation, found or not. */
  ghost predicate Dequeued(s: System, s': System, p: nat, key: string, now: int)
    requires p < |s.procs| && p < |s'.procs|
  {
    var l := List(s.pending, key);
    if forall j :: 0 <= j < |l| ==> !Due(s, l[j], now) then
      List(s'.pending, key) == l && s'.msgs == s.msgs && s'.inflight == s.inflight && s'.procs[p] == s.procs[p]
    else
      exists i :: FirstDue(s, l, now, i) && List(s'.pending, key) == l[i + 1..] + l[..i] && Handed(s, s', p, key, l[i])
  }

  ghost predicate FirstDue(s: System, l: seq<string>, now: int, i: int) {
    0 <= i < |l| && Due(s, l[i], now) && forall j :: 0 <= j < i ==> !Due(s, l[j], now)
  }

  lemma {:induction false} FindDue(s: System, l: seq<string>, now: int, from: nat) returns (i: nat)
    requires from <= |l| && exists j :: from <= j < |l| && Due(s, l[j], now)
    requires forall j :: 0 <= j < from ==> !Due(s, l[j], now)
    ensures FirstDue(s, l, now, i)
    decreases |l| - from
  {
    if Due(s, l[from], now) {
      i := from;
    } else {
      i := FindDue(s, l, now, from + 1);
    }
  }

  lemma ListedIsStored(s: System, key: string)
    requires Inv(s)
    ensures forall j :: 0 <= j < |List(s.pending, key)| ==> List(s.pending, key)[j] in s.msgs
  {
    var l := List(s.pending, key);
    forall j | 0 <= j < |l| ensures l[j] in s.msgs {
      OnListIsListed(s, l[j], key);
      assert Fits(s, l[j], s.place[l[j]]);
    }
  }

  /** An undisturbed dequeue ends, and does to list, records and sets what the in-memory dequeue does to its deque. */
  lemma SoloDequeue(s: System, p: nat, o: Owner, now: int) returns (n: nat)
    requires Inv(s) && Free(s, p)
    ensures var s' := Issued(Next(s, StartDequeue(p, o.0, o.1)), p, now, n);
            SameBut(s, s', p, Key(o)) && Dequeued(s, s', p, Key(o), now)
  {
    var l := List(s.pending, Key(o));
    var s0 := Next(s, StartDequeue(p, o.0, o.1));
    assert s0 == Goto(s, p, ReadLength(o));
    var s1 := Next(s0, Issue(p, now));
    LengthRead(s, p, o, now);
    assert Issued(s0, p, now, 1) == s1;
    if l == [] {
      n := 1;
    } else {
      n := SoloScan(s, s1, p, o, now);
      IssuedMore(s0, p, now, 1, n);
      n := 1 + n;
    }
  }

  lemma LengthRead(s: System, p: nat, o: Owner, now: int)
    requires Free(s, p)
    ensures var l := List(s.pending, Key(o));
            Next(Goto(s, p, ReadLength(o)), Issue(p, now)) == Goto(s, p, if l == [] then Idle else Pop(o, |l|))
  {
    var s0 := Goto(s, p, ReadLength(o));
    assert Next(s0, Issue(p, now)) == Command(s0, p, now);
  }

  lemma SoloScan(s: System, s1: System, p: nat, o: Owner, now: int) returns (n: nat)
    requires Inv(s) && Free(s, p) && s1 == Goto(s, p, Pop(o, |List(s.pending, Key(o))|))
    ensures var s' := Issued(s1, p, now, n); SameBut(s, s', p, Key(o)) && Dequeued(s, s', p, Key(o), now)
  {
    var l := List(s.pending, Key(o));
    ListedIsStored(s, Key(o));
    assert forall j :: 0 <= j < |l| ==> (Due(s1, l[j], now) <==> Due(s, l[j], now));
    if forall j :: 0 <= j < |l| ==> !Due(s, l[j], now) {
      n := ScanFails(s1, p, o, |l|, now);
      assert l[|l|..] + l[..|l|] == l;
    } else {
      var i := FindDue(s, l, now, 0);
      n := ScanFinds(s1, p, o, |l|, now, i);
      assert Handed(s, Issued(s1, p, now, n), p, Key(o), l[i]);
    }
  }

  // ---- Enqueue, ack and nack ----

  /** An undisturbed enqueue stores the message as pending and puts it at the end of its list. */
  lemma SoloEnqueue(s: System, p: nat, id: string, d: Data, now: int)
    requires Free(s, p) && id !in s.place && d.status == Pending
    ensures var o := (d.tenant, d.queue);
            var s' := Issued(Next(s, StartEnqueue(p, id, d.tenant, d.queue, d.attempt, d.availableAt)), p, now, 3);
            && s'.pending == s.pending[Key(o) := List(s.pending, Key(o)) + [id]]
            && s'.msgs == s.msgs[id := d] && s'.index == s.index[id := o] && s'.inflight == s.inflight
            && s'.procs == s.procs
  {
    var s0 := Next(s, StartEnqueue(p, id, d.tenant, d.queue, d.attempt, d.availableAt));
    assert s0.procs[p] == Process(s.procs[p].held, SetIndex(id, d));
    var s1 := Next(s0, Issue(p, now));
    assert s1.procs[p] == Process(s.procs[p].held, SetNew(id, d)) && s1.index == s.index[id := (d.tenant, d.queue)];
    var s2 := Next(s1, Issue(p, now));
    assert s2.procs[p] == Process(s.procs[p].held, PushNew(id, d)) && s2.msgs == s.msgs[id := d];
    var s3 := Next(s2, Issue(p, now));
    assert s3.procs == s.procs;
    assert Issued(s0, p, now, 3) == Issued(s1, p, now, 2) == Issued(s2, p, now, 1) == s3;
  }

  /** What is stored about a message that an idle process holds. */
  lemma HeldIsStored(s: System, p: nat, id: string)
    requires Inv(s) && Free(s, p) && id in s.procs[p].held
    ensures id in s.index && id in s.msgs && s.msgs[id].status == InFlight && id in InSet(s.inflight, Key(s.index[id]))
  {
    HolderOwns(s, p, id);
    assert Fits(s, id, s.place[id]);
  }

  lemma AckChecks(s: System, p: nat, id: string, now: int)
    requires Free(s, p) && Indexed(s, id) && id in s.msgs && s.msgs[id].status == InFlight
    ensures Issued(Goto(s, p, AckIndex(s.index[id].0, id)), p, now, 2) == Goto(s, p, AckRemove(s.index[id], id))
  {
    var o := s.index[id];
    var s0 := Goto(s, p, AckIndex(o.0, id));
    var s1 := Next(s0, Issue(p, now));
    assert s1 == Goto(s, p, AckLoad(o, id));
    assert Next(s1, Issue(p, now)) == Goto(s, p, AckRemove(o, id));
    assert Issued(s0, p, now, 2) == Issued(s1, p, now, 1) == Issued(Next(s1, Issue(p, now)), p, now, 0);
  }

  lemma AckWrites(s: System, p: nat, o: Owner, id: string, now: int)
    requires p < |s.procs| && s.procs[p].pc == AckRemove(o, id)
    ensures var s' := Issued(s, p, now, 3);
            && s'.pending == s.pending && s'.msgs == s.msgs - {id} && s'.index == s.index - {id}
            && s'.inflight == s.inflight[Key(o) := InSet(s.inflight, Key(o)) - {id}]
            && s'.procs == s.procs[p := Process(s.procs[p].held - {id}, Idle)]
  {
    var s1 := Next(s, Issue(p, now));
    assert s1.procs[p] == Process(s.procs[p].held, AckDelete(id));
    var s2 := Next(s1, Issue(p, now));
    assert s2.procs[p] == Process(s.procs[p].held, AckUnindex(id));
    var s3 := Next(s2, Issue(p, now));
    assert Issued(s, p, now, 3) == Issued(s1, p, now, 2) == Issued(s2, p, now, 1) == s3;
  }

  /** A held message with an empty tenant or queue name cannot be settled: ack and nack look it up and do nothing. */
  lemma UnnamedStaysHeld(s: System, p: nat, id: string, requeue: bool, delayMs: int, now: int)
    requires Inv(s) && Free(s, p) && id in s.procs[p].held && !Indexed(s, id)
    ensures id in s.index
    ensures Issued(Next(s, StartAck(p, s.index[id].0, id)), p, now, 1) == s
    ensures Issued(Next(s, StartNack(p, s.index[id].0, id, requeue, delayMs)), p, now, 1) == s
  {
    HeldIsStored(s, p, id);
    var a, n := Goto(s, p, AckIndex(s.index[id].0, id)), Goto(s, p, NackIndex(s.index[id].0, id, requeue, delayMs));
    assert Next(a, Issue(p, now)) == Goto(a, p, Idle) == s;
    assert Next(n, Issue(p, now)) == Goto(n, p, Idle) == s;
    assert Issued(a, p, now, 1) == Issued(Next(a, Issue(p, now)), p, now, 0);
    assert Issued(n, p, now, 1) == Issued(Next(n, Issue(p, now)), p, now, 0);
  }

  /** Issued commands are steps of a run. */
  lemma {:induction false} IssuesAreSteps(s: System, p: nat, now: int, n: nat) returns (steps: seq<Step>)
    ensures After(s, steps) == Issued(s, p, now, n)
    decreases n
  {
    if n == 0 {
      return [];
    }
    var rest := IssuesAreSteps(Next(s, Issue(p, now)), p, now, n - 1);
    steps := [Issue(p, now)] + rest;
    assert steps[1..] == rest;
  }

  lemma {:induction false} AfterConcat(s: System, a: seq<Step>, b: seq<Step>)
    ensures After(s, a + b) == After(After(s, a), b)
    decreases |a|
  {
    if a == [] {
      assert a + b == b;
    } else {
      assert (a + b)[0] == a[0] && (a + b)[1..] == a[1..] + b;
      AfterConcat(Next(s, a[0]), a[1..], b);
    }
  }

  /** An operation begun in a reached state and left undisturbed reaches the state it ends in. */
  lemma OperationIsReached(n: nat, steps: seq<Step>, begin: Step, p: nat, now: int, commands: nat)
    returns (more: seq<Step>)
    ensures After(Init(n), more) == Issued(Next(After(Init(n), steps), begin), p, now, commands)
  {
    var rest := IssuesAreSteps(Next(After(Init(n), steps), begin), p, now, commands);
    more := steps + ([begin] + rest);
    AfterConcat(Init(n), steps, [begin] + rest);
    assert ([begin] + rest)[1..] == rest;
  }

  /** Every message with an empty tenant or queue name can be enqueued and taken, and is then held so. */
  lemma UnnamedIsReached(id: string, d: Data, now: int) returns (steps: seq<Step>)
    requires d.status == Pending && d.availableAt <= now && (d.tenant == "" || d.queue == "")
    ensures var s := After(Init(1), steps); Free(s, 0) && id in s.procs[0].held && !Indexed(s, id)
  {
    var o := (d.tenant, d.queue);
    var enqueue := EnqueuedIsReached(id, d, now);
    InitInv(1);
    RunKeepsInv(Init(1), enqueue);
    var n := OnlyOneIsTaken(After(Init(1), enqueue), id, o, now);
    steps := OperationIsReached(1, enqueue, StartDequeue(0, o.0, o.1), 0, now, n);
  }

  /** The message is the only one on its list, and due. */
  ghost predicate AloneDue(s: System, id: string, o: Owner, now: int) {
    Free(s, 0) && List(s.pending, Key(o)) == [id] && Due(s, id, now) && id in s.index && s.index[id] == o
  }

  lemma EnqueuedIsReached(id: string, d: Data, now: int) returns (steps: seq<Step>)
    requires d.status == Pending && d.availableAt <= now
    ensures AloneDue(After(Init(1), steps), id, (d.tenant, d.queue), now)
  {
    assert After(Init(1), []) == Init(1);
    SoloEnqueue(Init(1), 0, id, d, now);
    steps := OperationIsReached(1, [], StartEnqueue(0, id, d.tenant, d.queue, d.attempt, d.availableAt), 0, now, 3);
  }

  lemma OnlyOneIsTaken(s: System, id: string, o: Owner, now: int) returns (n: nat)
    requires Inv(s) && AloneDue(s, id, o, now)
    ensures var s' := Issued(Next(s, StartDequeue(0, o.0, o.1)), 0, now, n);
            Free(s', 0) && id in s'.procs[0].held && id in s'.index && s'.index[id] == o
  {
    n := SoloDequeue(s, 0, o, now);
  }

  /**
   * An undisturbed ack by the holder, for the right tenant, removes record, index entry and set member, and no more.
   */
  lemma SoloAck(s: System, p: nat, id: string, now: int)
    requires Inv(s) && Free(s, p) && id in s.procs[p].held && Indexed(s, id)
    ensures id in s.index
    ensures var s' := Issued(Next(s, StartAck(p, s.index[id].0, id)), p, now, 5);
            && s'.pending == s.pending && s'.msgs == s.msgs - {id} && s'.index == s.index - {id}
            && s'.inflight == s.inflight[Key(s.index[id]) := InSet(s.inflight, Key(s.index[id])) - {id}]
            && s'.procs == s.procs[p := Process(s.procs[p].held - {id}, Idle)]
  {
    HeldIsStored(s, p, id);
    var o := s.index[id];
    AckChecks(s, p, id, now);
    AckWrites(Goto(s, p, AckRemove(o, id)), p, o, id, now);
    IssuedMore(Goto(s, p, AckIndex(o.0, id)), p, now, 2, 3);
  }

  /** The record a nack stores. */
  function Nacked(d: Data, requeue: bool, delayMs: int, now: int): Data {
    Data(d.tenant, d.queue, d.attempt + 1, if requeue then now + Max(0, delayMs) else d.availableAt,
         if requeue then Pending else Discarded)
  }

  lemma NackChecks(s: System, p: nat, id: string, requeue: bool, delayMs: int, now: int)
    requires Free(s, p) && Indexed(s, id) && id in s.msgs && s.msgs[id].status == InFlight
    ensures Issued(Goto(s, p, NackIndex(s.index[id].0, id, requeue, delayMs)), p, now, 2)
         == Goto(s, p, NackSave(s.index[id], id, Nacked(s.msgs[id], requeue, delayMs, now)))
  {
    var o := s.index[id];
    var s0 := Goto(s, p, NackIndex(o.0, id, requeue, delayMs));
    var s1 := Next(s0, Issue(p, now));
    assert s1 == Goto(s, p, NackLoad(o, id, requeue, delayMs));
    assert Next(s1, Issue(p, now)) == Goto(s, p, NackSave(o, id, Nacked(s.msgs[id], requeue, delayMs, now)));
    assert Issued(s0, p, now, 2) == Issued(s1, p, now, 1) == Issued(Next(s1, Issue(p, now)), p, now, 0);
  }

  lemma NackWrites(s: System, p: nat, o: Owner, id: string, d: Data, now: int)
    requires p < |s.procs| && s.procs[p].pc == NackSave(o, id, d)
    ensures var s' := Issued(s, p, now, if d.status.Pending? then 3 else 2);
            && s'.msgs == s.msgs[id := d] && s'.index == s.index
            && s'.inflight == s.inflight[Key(o) := InSet(s.inflight, Key(o)) - {id}]
            && s'.pending == (if d.status.Pending? then s.pending[Key(o) := [id] + List(s.pending, Key(o))]
                              else s.pending)
            && s'.procs == s.procs[p := Process(s.procs[p].held - {id}, Idle)]
  {
    var s1 := Next(s, Issue(p, now));
    assert s1.procs[p] == Process(s.procs[p].held, NackRemove(o, id, d.status.Pending?));
    var s2 := Next(s1, Issue(p, now));
    assert Issued(s, p, now, 2) == Issued(s1, p, now, 1) == Issued(s2, p, now, 0);
    if d.status.Pending? {
      assert s2.procs[p] == Process(s.procs[p].held, NackPush(o, id));
      var s3 := Next(s2, Issue(p, now));
      assert Issued(s, p, now, 3) == Issued(s1, p, now, 2) == Issued(s2, p, now, 1) == s3;
    }
  }

  /**
   * An undisturbed nack by the holder counts the attempt and takes the message out of its set; requeued it becomes due
   * after the delay and goes to the front of its list, otherwise it is marked discarded.
   */
  lemma SoloNack(s: System, p: nat, id: string, requeue: bool, delayMs: int, now: int)
    requires Inv(s) && Free(s, p) && id in s.procs[p].held && Indexed(s, id)
    ensures id in s.index && id in s.msgs
    ensures var key, d := Key(s.index[id]), Nacked(s.msgs[id], requeue, delayMs, now);
            var s' := Issued(Next(s, StartNack(p, s.index[id].0, id, requeue, delayMs)), p, now,
                             if requeue then 5 else 4);
            && s'.msgs == s.msgs[id := d] && s'.index == s.index
            && s'.inflight == s.inflight[key := InSet(s.inflight, key) - {id}]
            && s'.pending == (if requeue then s.pending[key := [id] + List(s.pending, key)] else s.pending)
            && s'.procs == s.procs[p := Process(s.procs[p].held - {id}, Idle)]
  {
    HeldIsStored(s, p, id);
    var o, d := s.index[id], Nacked(s.msgs[id], requeue, delayMs, now);
    NackChecks(s, p, id, requeue, delayMs, now);
    NackWrites(Goto(s, p, NackSave(o, id, d)), p, o, id, d, now);
    IssuedMore(Goto(s, p, NackIndex(o.0, id, requeue, delayMs)), p, now, 2, if requeue then 3 else 2);
  }
}
