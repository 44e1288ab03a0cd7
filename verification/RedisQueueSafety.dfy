/** What every interleaving of Redis commands keeps: one place per message, and stored data that agrees with it. */
module RedisQueueSafety {
  import opened Basics
  import opened RedisQueue

  // ---- The invariant ----

  ghost predicate Has(s: System, id: string, shape: Shape) {
    && (id in s.index <==> shape.indexed)
    && (id in s.msgs <==> shape.status.Some?)
    && (shape.status.Some? ==> s.msgs[id].status == shape.status.value)
    && (shape.indexed && shape.status.Some? ==> s.index[id] == (s.msgs[id].tenant, s.msgs[id].queue))
    && (forall k :: id in InSet(s.inflight, k) <==> shape.inflight && shape.indexed && k == Key(s.index[id]))
  }

  ghost predicate OnList(s: System, id: string) {
    exists k :: id in List(s.pending, k)
  }

  /** The stored data of an id is what its place says, and it is on a list exactly when its place says so. */
  ghost predicate Fits(s: System, id: string, place: Place) {
    match place
    case Listed => Has(s, id, STORED) && id in List(s.pending, Key(s.index[id]))
    case Owned(_, shape) => Has(s, id, shape)
    case Lost(shape) => Has(s, id, shape)
    case Dropped => Has(s, id, DROPPED)
    case Gone => Has(s, id, FRESH)
  }

  ghost predicate ListOk(s: System, k: string, l: seq<string>) {
    && (forall i :: 0 <= i < |l| ==>
        l[i] in s.place && s.place[l[i]].Listed? && l[i] in s.index && k == Key(s.index[l[i]]))
    && (forall i, j :: 0 <= i < j < |l| ==> l[i] != l[j])
  }

  /** The id an operation is working on, when it has one, and the shape its stored data has at this point. */
  function Working(pc: Pc): Option<(string, Shape)> {
    match pc
    case Idle => None
    case SetIndex(id, _) => Some((id, FRESH))
    case SetNew(id, _) => Some((id, NAMED))
    case PushNew(id, _) => Some((id, STORED))
    case ReadLength(_) => None
    case Pop(_, _) => None
    case Load(_, _, id) => Some((id, STORED))
    case PushBack(_, _, id) => Some((id, STORED))
    case MarkInFlight(_, id, _) => Some((id, STORED))
    case AddInFlight(_, id) => Some((id, MARKED))
    case AckIndex(_, id) => Some((id, HELD))
    case AckLoad(_, id) => Some((id, HELD))
    case AckRemove(_, id) => Some((id, HELD))
    case AckDelete(id) => Some((id, MARKED))
    case AckUnindex(id) => Some((id, NAMED))
    case NackIndex(_, id, _, _) => Some((id, HELD))
    case NackLoad(_, id, _, _) => Some((id, HELD))
    case NackSave(_, id, _) => Some((id, HELD))
    case NackRemove(_, id, rq) => Some((id, if rq then REVERTED else DROPPING))
    case NackPush(_, id) => Some((id, STORED))
  }

  /** Local copies of names and records agree with what is stored. */
  ghost predicate Locals(s: System, pc: Pc) {
    match pc
    case SetIndex(_, d) => d.status == Pending
    case SetNew(id, d) => d.status == Pending && id in s.index && s.index[id] == (d.tenant, d.queue)
    case PushNew(id, d) => id in s.index && s.index[id] == (d.tenant, d.queue)
    case Load(o, _, id) => id in s.index && Key(s.index[id]) == Key(o)
    case PushBack(o, _, id) => id in s.index && Key(s.index[id]) == Key(o)
    case MarkInFlight(o, id, d) =>
      id in s.index && Key(s.index[id]) == Key(o) && s.index[id] == (d.tenant, d.queue) && d.status == InFlight
    case AddInFlight(o, id) => id in s.index && Key(s.index[id]) == Key(o)
    case AckLoad(o, id) => id in s.index && s.index[id] == o
    case AckRemove(o, id) => id in s.index && s.index[id] == o
    case NackLoad(o, id, _, _) => id in s.index && s.index[id] == o
    case NackSave(o, id, d) => id in s.index && s.index[id] == o == (d.tenant, d.queue) && d.status != InFlight
    case NackRemove(o, id, _) => id in s.index && s.index[id] == o
    case NackPush(o, id) => id in s.index && s.index[id] == o
    case _ => true
  }

  /** Ack and nack work on a message the process holds. */
  predicate Settles(pc: Pc) {
    pc.AckIndex? || pc.AckLoad? || pc.AckRemove? || pc.AckDelete? || pc.AckUnindex?
    || pc.NackIndex? || pc.NackLoad? || pc.NackSave? || pc.NackRemove? || pc.NackPush?
  }

  ghost predicate ProcOk(s: System, p: nat, proc: Process) {
    && Locals(s, proc.pc)
    && (Working(proc.pc).Some? ==> (Settles(proc.pc) <==> Working(proc.pc).value.0 in proc.held))
    && (Working(proc.pc).Some? ==> Owns(s, p, Working(proc.pc).value.0, Working(proc.pc).value.1))
    && (forall id :: id in proc.held && !(Working(proc.pc).Some? && Working(proc.pc).value.0 == id) ==>
        Owns(s, p, id, HELD))
  }

  ghost predicate Owns(s: System, p: nat, id: string, shape: Shape) {
    id in s.place && s.place[id] == Owned(p, shape)
  }

  /** What a process owns is what it works on or holds. */
  ghost predicate Backed(s: System, id: string, place: Place) {
    place.Owned? ==>
      && place.p < |s.procs|
      && (id in s.procs[place.p].held
          || (Working(s.procs[place.p].pc).Some? && Working(s.procs[place.p].pc).value.0 == id))
  }

  ghost predicate Inv(s: System) {
    && (forall id :: id in s.place ==> Fits(s, id, s.place[id]) && Backed(s, id, s.place[id]))
    && (forall id :: id in s.index || id in s.msgs ==> id in s.place)
    && (forall k :: k in s.inflight ==> forall id :: id in s.inflight[k] ==> id in s.place)
    && (forall k :: k in s.pending ==> ListOk(s, k, s.pending[k]))
    && (forall p :: 0 <= p < |s.procs| ==> ProcOk(s, p, s.procs[p]))
  }

  // ---- One id at a time ----

  /** Nothing about the id x is stored differently. */
  ghost predicate Untouched(s: System, s': System, x: string) {
    && (x in s.index <==> x in s'.index) && (x in s.index ==> s'.index[x] == s.index[x])
    && (x in s.msgs <==> x in s'.msgs) && (x in s.msgs ==> s'.msgs[x] == s.msgs[x])
    && (forall k :: x in InSet(s.inflight, k) <==> x in InSet(s'.inflight, k))
    && (forall k :: x in List(s.pending, k) ==> x in List(s'.pending, k))
  }

  /**
   * A command that touches one id, which the process owned or took from a list, keeps the invariant when that id fits
   * its new place, the lists are in order, and the process's own state is right.
   */
  lemma MoveKeepsInv(s: System, s': System, p: nat, id: string, place: Place)
    requires Inv(s) && p < |s.procs| && s'.place == s.place[id := place]
    requires id in s.place ==> s.place[id].Listed? || (s.place[id].Owned? && s.place[id].p == p)
    requires |s'.procs| == |s.procs| && forall q :: 0 <= q < |s.procs| && q != p ==> s'.procs[q] == s.procs[q]
    requires forall x :: x != id ==> Untouched(s, s', x)
    requires Fits(s', id, place) && Backed(s', id, place)
    requires forall x :: x != id && (x in s.procs[p].held
                                     || (Working(s.procs[p].pc).Some? && Working(s.procs[p].pc).value.0 == x)) ==>
               x in s'.procs[p].held || (Working(s'.procs[p].pc).Some? && Working(s'.procs[p].pc).value.0 == x)
    requires forall k :: k in s'.pending ==> ListOk(s', k, s'.pending[k])
    requires ProcOk(s', p, s'.procs[p])
    ensures Inv(s')
  {
    forall x | x in s'.place ensures Fits(s', x, s'.place[x]) && Backed(s', x, s'.place[x]) {
      if x != id {
        assert Fits(s, x, s.place[x]) && Backed(s, x, s.place[x]) && Untouched(s, s', x);
      }
    }
    forall x | x in s'.index || x in s'.msgs ensures x in s'.place {
      assert x != id ==> Untouched(s, s', x);
    }
    forall k | k in s'.inflight ensures forall x :: x in s'.inflight[k] ==> x in s'.place {
      forall x | x in s'.inflight[k] ensures x in s'.place {
        if x != id {
          assert Untouched(s, s', x) && x in InSet(s'.inflight, k);
          assert x in InSet(s.inflight, k);
        }
      }
    }
    forall q | 0 <= q < |s'.procs| ensures ProcOk(s', q, s'.procs[q]) {
      if q != p {
        OthersKeepProc(s, s', q, id, place);
      }
    }
  }

  lemma OthersKeepProc(s: System, s': System, q: nat, id: string, place: Place)
    requires q < |s.procs| && q < |s'.procs| && s'.procs[q] == s.procs[q] && ProcOk(s, q, s.procs[q])
    requires s'.place == s.place[id := place] && (id in s.place ==> !(s.place[id].Owned? && s.place[id].p == q))
    requires forall x :: x != id ==> Untouched(s, s', x)
    ensures ProcOk(s', q, s'.procs[q])
  {
    var w := Working(s.procs[q].pc);
    if w.Some? {
      assert Owns(s, q, w.value.0, w.value.1);
      assert Untouched(s, s', w.value.0);
    }
  }

  // ---- The pending lists ----

  /** An id that is on a list is listed, and under its own key. */
  lemma OnListIsListed(s: System, id: string, k: string)
    requires Inv(s) && id in List(s.pending, k)
    ensures id in s.place && s.place[id].Listed? && id in s.index && k == Key(s.index[id])
  {
    assert k in s.pending && ListOk(s, k, s.pending[k]);
  }

  /** Lists that did not change stay in order while an id that is on none of them moves. */
  lemma ListsStay(s: System, s': System, id: string, place: Place)
    requires Inv(s) && s'.pending == s.pending && s'.place == s.place[id := place]
    requires id in s.place ==> !s.place[id].Listed?
    requires forall x :: x in s.index && x != id ==> x in s'.index && s'.index[x] == s.index[x]
    ensures forall k :: k in s'.pending ==> ListOk(s', k, s'.pending[k])
  {
    forall k | k in s'.pending ensures ListOk(s', k, s'.pending[k]) {
      assert ListOk(s, k, s.pending[k]);
    }
  }

  /** Pushing an id that was on no list, at either end of its own list, keeps all lists in order. */
  lemma PushKeepsLists(s: System, s': System, id: string, k: string, left: bool)
    requires Inv(s) && s'.index == s.index && s'.place == s.place[id := Listed]
    requires id in s.place && s.place[id].Owned? && id in s.index && k == Key(s.index[id])
    requires s'.pending == s.pending[k := if left then [id] + List(s.pending, k) else List(s.pending, k) + [id]]
    ensures forall l :: l in s'.pending ==> ListOk(s', l, s'.pending[l])
  {
    forall l | l in s'.pending ensures ListOk(s', l, s'.pending[l]) {
      var old' := List(s.pending, l);
      assert ListOk(s, l, old') by {
        assert l in s.pending ==> ListOk(s, l, s.pending[l]);
      }
      assert forall i :: 0 <= i < |old'| ==> old'[i] != id;
    }
  }

  /** Popping the head of a list keeps all lists in order. */
  lemma PopKeepsLists(s: System, s': System, k: string, place: Place)
    requires Inv(s) && List(s.pending, k) != [] && s'.index == s.index
    requires s'.place == s.place[List(s.pending, k)[0] := place]
    requires s'.pending == s.pending[k := List(s.pending, k)[1..]]
    ensures forall l :: l in s'.pending ==> ListOk(s', l, s'.pending[l])
  {
    var id := List(s.pending, k)[0];
    forall l | l in s'.pending ensures ListOk(s', l, s'.pending[l]) {
      assert k in s.pending && ListOk(s, k, s.pending[k]);
      assert l in s.pending && ListOk(s, l, s.pending[l]);
      if l != k {
        assert forall i :: 0 <= i < |s.pending[l]| ==> s.pending[l][i] != id;
      }
    }
  }

  // ---- Commands that write one key ----

  /** Process p works on id, and after the step every other process, and what else p holds, is as before. */
  ghost predicate OwnStep(s: System, s': System, p: nat, id: string) {
    && p < |s.procs| == |s'.procs|
    && Working(s.procs[p].pc).Some? && Working(s.procs[p].pc).value.0 == id
    && (forall q :: 0 <= q < |s.procs| && q != p ==> s'.procs[q] == s.procs[q])
    && (forall x :: x in s.procs[p].held && x != id ==> x in s'.procs[p].held)
  }

  ghost predicate SameStore(s: System, s': System, id: string) {
    forall x :: x != id ==>
      && (x in s.index <==> x in s'.index) && (x in s.index ==> s'.index[x] == s.index[x])
      && (x in s.msgs <==> x in s'.msgs) && (x in s.msgs ==> s'.msgs[x] == s.msgs[x])
  }

  /** SET and DEL: only the index entry or the record of the id changes. */
  lemma StoreMoveKeeps(s: System, s': System, p: nat, id: string, place: Place)
    requires Inv(s) && OwnStep(s, s', p, id) && SameStore(s, s', id)
    requires s'.pending == s.pending && s'.inflight == s.inflight && s'.place == s.place[id := place]
    requires Fits(s', id, place) && Backed(s', id, place) && ProcOk(s', p, s'.procs[p])
    ensures Inv(s')
  {
    assert ProcOk(s, p, s.procs[p]);
    forall x | x != id ensures Untouched(s, s', x) {
    }
    ListsStay(s, s', id, place);
    MoveKeepsInv(s, s', p, id, place);
  }

  /** SET on the record of an id that is indexed: the process goes on with the id in its new shape. */
  lemma WriteKeeps(s: System, s': System, p: nat, pc: Pc, id: string, d: Data, shape: Shape)
    requires Inv(s) && p < |s.procs| && Working(s.procs[p].pc).Some? && Working(s.procs[p].pc).value.0 == id
    requires s' == Move(Goto(s, p, pc), id, Owned(p, shape)).(msgs := s.msgs[id := d])
    requires Working(pc) == Some((id, shape)) && (Settles(s.procs[p].pc) <==> Settles(pc))
    requires id in s.index && s.index[id] == (d.tenant, d.queue) && Locals(s', pc)
    requires shape == Working(s.procs[p].pc).value.1.(status := Some(d.status)) && shape.indexed
    ensures Inv(s')
  {
    WorksOn(s, p);
    GoesOn(s, s', p, pc, id, shape);
    StoreMoveKeeps(s, s', p, id, Owned(p, shape));
  }

  /** A process that goes on with its id in a new shape is in order, and the id stays its own. */
  lemma GoesOn(s: System, s': System, p: nat, pc: Pc, id: string, shape: Shape)
    requires Inv(s) && p < |s.procs| && Working(s.procs[p].pc).Some? && Working(s.procs[p].pc).value.0 == id
    requires s'.procs == s.procs[p := s.procs[p].(pc := pc)] && s'.place == s.place[id := Owned(p, shape)]
    requires Working(pc) == Some((id, shape)) && (Settles(s.procs[p].pc) <==> Settles(pc)) && Locals(s', pc)
    ensures ProcOk(s', p, s'.procs[p]) && Backed(s', id, Owned(p, shape))
  {
    WorksOn(s, p);
  }

  /** SADD and SREM: only one in-flight set gains or loses the id. */
  lemma SetMoveKeeps(s: System, s': System, p: nat, id: string, k: string, add: bool, place: Place)
    requires Inv(s) && OwnStep(s, s', p, id)
    requires s'.index == s.index && s'.msgs == s.msgs && s'.pending == s.pending && s'.place == s.place[id := place]
    requires s'.inflight == s.inflight[k := if add then InSet(s.inflight, k) + {id} else InSet(s.inflight, k) - {id}]
    requires Fits(s', id, place) && Backed(s', id, place) && ProcOk(s', p, s'.procs[p])
    ensures Inv(s')
  {
    assert ProcOk(s, p, s.procs[p]);
    forall x | x != id ensures Untouched(s, s', x) {
    }
    ListsStay(s, s', id, place);
    MoveKeepsInv(s, s', p, id, place);
  }

  /** After SADD or SREM on one key the id is in that set or not, and in the others as before. */
  lemma SetsAfter(s: System, s': System, id: string, k: string, add: bool)
    requires s'.inflight == s.inflight[k := if add then InSet(s.inflight, k) + {id} else InSet(s.inflight, k) - {id}]
    ensures forall l :: id in InSet(s'.inflight, l) <==> if l == k then add else id in InSet(s.inflight, l)
  {
    forall l ensures id in InSet(s'.inflight, l) <==> if l == k then add else id in InSet(s.inflight, l) {
    }
  }

  /** RPUSH and LPUSH: the id goes back on its own list and leaves the process. */
  lemma PushMoveKeeps(s: System, s': System, p: nat, id: string, k: string, left: bool)
    requires Inv(s) && OwnStep(s, s', p, id) && id in s.index && k == Key(s.index[id]) && Has(s, id, STORED)
    requires s'.index == s.index && s'.msgs == s.msgs && s'.inflight == s.inflight && s'.place == s.place[id := Listed]
    requires s'.pending == s.pending[k := if left then [id] + List(s.pending, k) else List(s.pending, k) + [id]]
    requires ProcOk(s', p, s'.procs[p])
    ensures Inv(s')
  {
    assert ProcOk(s, p, s.procs[p]);
    forall x | x != id ensures Untouched(s, s', x) {
    }
    PushKeepsLists(s, s', id, k, left);
    assert id in List(s'.pending, k);
    MoveKeepsInv(s, s', p, id, Listed);
  }

  /** The facts a process has about the id it works on. */
  lemma WorksOn(s: System, p: nat)
    requires Inv(s) && p < |s.procs| && Working(s.procs[p].pc).Some?
    ensures var w := Working(s.procs[p].pc).value;
            Has(s, w.0, w.1) && Owns(s, p, w.0, w.1) && Locals(s, s.procs[p].pc)
    ensures Settles(s.procs[p].pc) <==> Working(s.procs[p].pc).value.0 in s.procs[p].held
    ensures forall id :: id in s.procs[p].held && id != Working(s.procs[p].pc).value.0 ==> Owns(s, p, id, HELD)
  {
    assert ProcOk(s, p, s.procs[p]);
    var w := Working(s.procs[p].pc).value;
    assert Fits(s, w.0, s.place[w.0]);
  }

  // ---- The commands of enqueue ----

  lemma SetIndexKeeps(s: System, p: nat, now: int)
    requires Inv(s) && p < |s.procs| && s.procs[p].pc.SetIndex?
    ensures Inv(Command(s, p, now))
  {
    WorksOn(s, p);
    StoreMoveKeeps(s, Command(s, p, now), p, s.procs[p].pc.id, Owned(p, NAMED));
  }

  lemma SetNewKeeps(s: System, p: nat, now: int)
    requires Inv(s) && p < |s.procs| && s.procs[p].pc.SetNew?
    ensures Inv(Command(s, p, now))
  {
    WorksOn(s, p);
    StoreMoveKeeps(s, Command(s, p, now), p, s.procs[p].pc.id, Owned(p, STORED));
  }

  lemma PushNewKeeps(s: System, p: nat, now: int)
    requires Inv(s) && p < |s.procs| && s.procs[p].pc.PushNew?
    ensures Inv(Command(s, p, now))
  {
    WorksOn(s, p);
    PushMoveKeeps(s, Command(s, p, now), p, s.procs[p].pc.id, Key(s.index[s.procs[p].pc.id]), false);
  }

  // ---- The commands of dequeue ----

  lemma PopKeeps(s: System, p: nat, now: int)
    requires Inv(s) && p < |s.procs| && s.procs[p].pc.Pop?
    ensures Inv(Command(s, p, now))
  {
    var s', k := Command(s, p, now), Key(s.procs[p].pc.own);
    assert ProcOk(s, p, s.procs[p]);
    if s.procs[p].pc.left == 0 || List(s.pending, k) == [] {
      StayKeepsInv(s, s', p);
    } else {
      TakeKeeps(s, s', p, k);
    }
  }

  lemma TakeKeeps(s: System, s': System, p: nat, k: string)
    requires Inv(s) && p < |s.procs| && s.procs[p].pc.Pop? && k == Key(s.procs[p].pc.own) && List(s.pending, k) != []
    requires s' == Move(Goto(s, p, Load(s.procs[p].pc.own, s.procs[p].pc.left, List(s.pending, k)[0])),
                        List(s.pending, k)[0], Owned(p, STORED))
                     .(pending := s.pending[k := List(s.pending, k)[1..]])
    ensures Inv(s')
  {
    var id := List(s.pending, k)[0];
    OnListIsListed(s, id, k);
    assert Fits(s, id, s.place[id]) && ProcOk(s, p, s.procs[p]);
    PopKeepsLists(s, s', k, Owned(p, STORED));
    forall x | x != id ensures Untouched(s, s', x) {
    }
    MoveKeepsInv(s, s', p, id, Owned(p, STORED));
  }

  lemma PushBackKeeps(s: System, p: nat, now: int)
    requires Inv(s) && p < |s.procs| && s.procs[p].pc.PushBack?
    ensures Inv(Command(s, p, now))
  {
    WorksOn(s, p);
    PushMoveKeeps(s, Command(s, p, now), p, s.procs[p].pc.id, Key(s.index[s.procs[p].pc.id]), false);
  }

  lemma MarkInFlightKeeps(s: System, p: nat, now: int)
    requires Inv(s) && p < |s.procs| && s.procs[p].pc.MarkInFlight?
    ensures Inv(Command(s, p, now))
  {
    WriteKeeps(s, Command(s, p, now), p, AddInFlight(s.procs[p].pc.own, s.procs[p].pc.id), s.procs[p].pc.id,
               s.procs[p].pc.data, MARKED);
  }

  lemma AddInFlightKeeps(s: System, p: nat, now: int)
    requires Inv(s) && p < |s.procs| && s.procs[p].pc.AddInFlight?
    ensures Inv(Command(s, p, now))
  {
    WorksOn(s, p);
    SetsAfter(s, Command(s, p, now), s.procs[p].pc.id, Key(s.procs[p].pc.own), true);
    SetMoveKeeps(s, Command(s, p, now), p, s.procs[p].pc.id, Key(s.procs[p].pc.own), true, Owned(p, HELD));
  }

  // ---- The commands of ack ----

  lemma AckRemoveKeeps(s: System, p: nat, now: int)
    requires Inv(s) && p < |s.procs| && s.procs[p].pc.AckRemove?
    ensures Inv(Command(s, p, now))
  {
    WorksOn(s, p);
    SetsAfter(s, Command(s, p, now), s.procs[p].pc.id, Key(s.procs[p].pc.own), false);
    SetMoveKeeps(s, Command(s, p, now), p, s.procs[p].pc.id, Key(s.procs[p].pc.own), false, Owned(p, MARKED));
  }

  lemma AckDeleteKeeps(s: System, p: nat, now: int)
    requires Inv(s) && p < |s.procs| && s.procs[p].pc.AckDelete?
    ensures Inv(Command(s, p, now))
  {
    WorksOn(s, p);
    StoreMoveKeeps(s, Command(s, p, now), p, s.procs[p].pc.id, Owned(p, NAMED));
  }

  lemma AckUnindexKeeps(s: System, p: nat, now: int)
    requires Inv(s) && p < |s.procs| && s.procs[p].pc.AckUnindex?
    ensures Inv(Command(s, p, now))
  {
    WorksOn(s, p);
    StoreMoveKeeps(s, Command(s, p, now), p, s.procs[p].pc.id, Gone);
  }

  // ---- The commands of nack ----

  lemma NackSaveKeeps(s: System, p: nat, now: int)
    requires Inv(s) && p < |s.procs| && s.procs[p].pc.NackSave?
    ensures Inv(Command(s, p, now))
  {
    var d := s.procs[p].pc.data;
    WorksOn(s, p);
    WriteKeeps(s, Command(s, p, now), p, NackRemove(s.procs[p].pc.own, s.procs[p].pc.id, d.status.Pending?),
               s.procs[p].pc.id, d,
               if d.status.Pending? then REVERTED else DROPPING);
  }

  lemma NackRemoveToRequeue(s: System, p: nat, now: int)
    requires Inv(s) && p < |s.procs| && s.procs[p].pc.NackRemove? && s.procs[p].pc.requeue
    ensures Inv(Command(s, p, now))
  {
    WorksOn(s, p);
    SetsAfter(s, Command(s, p, now), s.procs[p].pc.id, Key(s.procs[p].pc.own), false);
    SetMoveKeeps(s, Command(s, p, now), p, s.procs[p].pc.id, Key(s.procs[p].pc.own), false, Owned(p, STORED));
  }

  lemma NackRemoveToDrop(s: System, p: nat, now: int)
    requires Inv(s) && p < |s.procs| && s.procs[p].pc.NackRemove? && !s.procs[p].pc.requeue
    ensures Inv(Command(s, p, now))
  {
    WorksOn(s, p);
    SetsAfter(s, Command(s, p, now), s.procs[p].pc.id, Key(s.procs[p].pc.own), false);
    SetMoveKeeps(s, Command(s, p, now), p, s.procs[p].pc.id, Key(s.procs[p].pc.own), false, Dropped);
  }

  lemma NackPushKeeps(s: System, p: nat, now: int)
    requires Inv(s) && p < |s.procs| && s.procs[p].pc.NackPush?
    ensures Inv(Command(s, p, now))
  {
    WorksOn(s, p);
    PushMoveKeeps(s, Command(s, p, now), p, s.procs[p].pc.id, Key(s.index[s.procs[p].pc.id]), true);
  }

  // ---- Commands that only read, starts and crashes ----

  /** A step that changes only where process p stands, and neither gains nor loses an id, keeps the invariant. */
  lemma StayKeepsInv(s: System, s': System, p: nat)
    requires Inv(s) && p < |s.procs| && |s'.procs| == |s.procs|
    requires s' == s.(procs := s'.procs) && forall q :: 0 <= q < |s.procs| && q != p ==> s'.procs[q] == s.procs[q]
    requires s'.procs[p].held == s.procs[p].held && ProcOk(s, p, s'.procs[p])
    requires Working(s.procs[p].pc).Some? ==>
               || Working(s'.procs[p].pc) == Working(s.procs[p].pc)
               || Working(s.procs[p].pc).value.0 in s.procs[p].held
    ensures Inv(s')
  {
    forall x | x in s'.place ensures Fits(s', x, s'.place[x]) && Backed(s', x, s'.place[x]) {
      assert Fits(s, x, s.place[x]) && Backed(s, x, s.place[x]) && Untouched(s, s', x);
    }
    forall k | k in s'.pending ensures ListOk(s', k, s'.pending[k]) {
      assert ListOk(s, k, s.pending[k]);
    }
    forall q | 0 <= q < |s'.procs| ensures ProcOk(s', q, s'.procs[q]) {
      assert q != p ==> ProcOk(s, q, s.procs[q]);
    }
  }

  lemma ReadKeeps(s: System, p: nat, now: int)
    requires Inv(s) && p < |s.procs| && (s.procs[p].pc.Idle? || s.procs[p].pc.ReadLength? || s.procs[p].pc.Load?)
    ensures Inv(Command(s, p, now))
  {
    if s.procs[p].pc.ReadLength? {
      assert ProcOk(s, p, s.procs[p]);
      StayKeepsInv(s, Command(s, p, now), p);
    } else if s.procs[p].pc.Load? {
      WorksOn(s, p);
      StayKeepsInv(s, Command(s, p, now), p);
    }
  }

  /** A step that only moves process p on, with the id it works on or leaves held, keeps the invariant. */
  lemma GotoKeeps(s: System, p: nat, pc: Pc)
    requires Inv(s) && p < |s.procs| && Locals(s, pc) && Settles(s.procs[p].pc)
    requires if pc.Idle? then Working(s.procs[p].pc).value.1 == HELD
             else Working(pc) == Working(s.procs[p].pc) && Settles(pc)
    ensures Inv(Goto(s, p, pc))
  {
    WorksOn(s, p);
    StayKeepsInv(s, Goto(s, p, pc), p);
  }

  lemma AckCheckKeeps(s: System, p: nat, now: int)
    requires Inv(s) && p < |s.procs| && (s.procs[p].pc.AckIndex? || s.procs[p].pc.AckLoad?)
    ensures Inv(Command(s, p, now))
  {
    WorksOn(s, p);
    GotoKeeps(s, p, Command(s, p, now).procs[p].pc);
  }

  lemma NackIndexKeeps(s: System, p: nat, now: int)
    requires Inv(s) && p < |s.procs| && s.procs[p].pc.NackIndex?
    ensures Inv(Command(s, p, now))
  {
    WorksOn(s, p);
    GotoKeeps(s, p, Command(s, p, now).procs[p].pc);
  }

  lemma NackLoadKeeps(s: System, p: nat, now: int)
    requires Inv(s) && p < |s.procs| && s.procs[p].pc.NackLoad?
    ensures Inv(Command(s, p, now))
  {
    WorksOn(s, p);
    GotoKeeps(s, p, Command(s, p, now).procs[p].pc);
  }

  lemma CommandKeepsInv(s: System, p: nat, now: int)
    requires Inv(s) && p < |s.procs|
    ensures Inv(Command(s, p, now))
  {
    match s.procs[p].pc
    case SetIndex(_, _) => SetIndexKeeps(s, p, now);
    case SetNew(_, _) => SetNewKeeps(s, p, now);
    case PushNew(_, _) => PushNewKeeps(s, p, now);
    case Pop(_, _) => PopKeeps(s, p, now);
    case PushBack(_, _, _) => PushBackKeeps(s, p, now);
    case MarkInFlight(_, _, _) => MarkInFlightKeeps(s, p, now);
    case AddInFlight(_, _) => AddInFlightKeeps(s, p, now);
    case AckRemove(_, _) => AckRemoveKeeps(s, p, now);
    case AckDelete(_) => AckDeleteKeeps(s, p, now);
    case AckUnindex(_) => AckUnindexKeeps(s, p, now);
    case NackSave(_, _, _) => NackSaveKeeps(s, p, now);
    case NackRemove(_, _, true) => NackRemoveToRequeue(s, p, now);
    case NackRemove(_, _, false) => NackRemoveToDrop(s, p, now);
    case NackPush(_, _) => NackPushKeeps(s, p, now);
    case AckIndex(_, _) => AckCheckKeeps(s, p, now);
    case AckLoad(_, _) => AckCheckKeeps(s, p, now);
    case NackIndex(_, _, _, _) => NackIndexKeeps(s, p, now);
    case NackLoad(_, _, _, _) => NackLoadKeeps(s, p, now);
    case _ => ReadKeeps(s, p, now);
  }

  lemma StartEnqueueKeeps(s: System, p: nat, id: string, d: Data)
    requires Inv(s) && Free(s, p) && id !in s.place && d.status == Pending
    ensures Inv(Move(Goto(s, p, SetIndex(id, d)), id, Owned(p, FRESH)))
  {
    var s' := Move(Goto(s, p, SetIndex(id, d)), id, Owned(p, FRESH));
    assert ProcOk(s, p, s.procs[p]);
    forall x | x != id ensures Untouched(s, s', x) {
    }
    assert forall k :: id in InSet(s.inflight, k) ==> k in s.inflight;
    ListsStay(s, s', id, Owned(p, FRESH));
    MoveKeepsInv(s, s', p, id, Owned(p, FRESH));
  }

  lemma StartKeeps(s: System, p: nat, pc: Pc)
    requires Inv(s) && Free(s, p)
    requires pc.ReadLength? || ((pc.AckIndex? || pc.NackIndex?) && pc.id in s.procs[p].held)
    ensures Inv(Goto(s, p, pc))
  {
    assert ProcOk(s, p, s.procs[p]);
    StayKeepsInv(s, Goto(s, p, pc), p);
  }

  lemma CrashKeeps(s: System, p: nat)
    requires Inv(s) && p < |s.procs|
    ensures Inv(s.(procs := s.procs[p := Process({}, Idle)], place := AfterCrash(s.place, p)))
  {
    var s' := s.(procs := s.procs[p := Process({}, Idle)], place := AfterCrash(s.place, p));
    forall x | x in s'.place ensures Fits(s', x, s'.place[x]) && Backed(s', x, s'.place[x]) {
      assert Fits(s, x, s.place[x]) && Backed(s, x, s.place[x]) && Untouched(s, s', x);
    }
    forall k | k in s'.pending ensures ListOk(s', k, s'.pending[k]) {
      assert ListOk(s, k, s.pending[k]);
    }
    forall q | 0 <= q < |s'.procs| ensures ProcOk(s', q, s'.procs[q]) {
      assert q != p ==> ProcOk(s, q, s.procs[q]);
    }
  }

  // ---- Every run ----

  lemma InitInv(n: nat)
    ensures Inv(Init(n))
  {
  }

  lemma NextKeepsInv(s: System, step: Step)
    requires Inv(s)
    ensures Inv(Next(s, step))
  {
    match step
    case StartEnqueue(p, id, t, q, a, at) =>
      if Free(s, p) && id !in s.place { StartEnqueueKeeps(s, p, id, Data(t, q, a, at, Pending)); }
    case StartDequeue(p, t, q) => if Free(s, p) { StartKeeps(s, p, ReadLength((t, q))); }
    case StartAck(p, t, id) => if Free(s, p) && id in s.procs[p].held { StartKeeps(s, p, AckIndex(t, id)); }
    case StartNack(p, t, id, rq, ms) =>
      if Free(s, p) && id in s.procs[p].held { StartKeeps(s, p, NackIndex(t, id, rq, ms)); }
    case Issue(p, now) => if p < |s.procs| { CommandKeepsInv(s, p, now); }
    case Crash(p) => if p < |s.procs| { CrashKeeps(s, p); }
  }

  lemma {:induction false} RunKeepsInv(s: System, steps: seq<Step>)
    requires Inv(s)
    ensures Inv(After(s, steps))
    decreases |steps|
  {
    if steps != [] {
      NextKeepsInv(s, steps[0]);
      RunKeepsInv(Next(s, steps[0]), steps[1..]);
    }
  }

  // ---- What a reader of the Redis data sees ----

  /** In every reachable state, crashes included, a held message is held by one process and on no pending list. */
  lemma HeldByOne(n: nat, steps: seq<Step>, p: nat, id: string)
    requires var s := After(Init(n), steps); p < |s.procs| && id in s.procs[p].held
    ensures var s := After(Init(n), steps);
            && (forall q :: 0 <= q < |s.procs| && q != p ==> id !in s.procs[q].held)
            && (forall k :: id !in List(s.pending, k))
  {
    var s := After(Init(n), steps);
    InitInv(n);
    RunKeepsInv(Init(n), steps);
    HolderOwns(s, p, id);
    forall q | 0 <= q < |s.procs| && q != p ensures id !in s.procs[q].held {
      if id in s.procs[q].held {
        HolderOwns(s, q, id);
      }
    }
    forall k ensures id !in List(s.pending, k) {
      if id in List(s.pending, k) {
        OnListIsListed(s, id, k);
      }
    }
  }

  lemma HolderOwns(s: System, p: nat, id: string)
    requires Inv(s) && p < |s.procs| && id in s.procs[p].held
    ensures id in s.place && s.place[id].Owned? && s.place[id].p == p
    ensures s.procs[p].pc.Idle? ==> s.place[id].shape == HELD
  {
    assert ProcOk(s, p, s.procs[p]);
  }

  /** The id is on the list of its own queue, once, and on no other list. */
  ghost predicate OnceListed(s: System, id: string) {
    && id in s.index
    && (forall k :: id in List(s.pending, k) <==> k == Key(s.index[id]))
    && var l := List(s.pending, Key(s.index[id]));
       forall i, j :: 0 <= i < j < |l| ==> l[i] != id || l[j] != id
  }

  ghost predicate OffLists(s: System, id: string) {
    forall k :: id !in List(s.pending, k)
  }

  ghost predicate InNoSet(s: System, id: string) {
    forall k :: id !in InSet(s.inflight, k)
  }

  ghost predicate InOwnSet(s: System, id: string) {
    && id in s.index
    && forall k :: id in InSet(s.inflight, k) <==> k == Key(s.index[id])
  }

  ghost predicate HeldOnce(s: System, id: string) {
    exists p :: 0 <= p < |s.procs| && id in s.procs[p].held
                && forall q :: 0 <= q < |s.procs| && id in s.procs[q].held ==> q == p
  }

  ghost predicate HeldByNone(s: System, id: string) {
    forall p :: 0 <= p < |s.procs| ==> id !in s.procs[p].held
  }

  /** Deliverable: pending, once on its own list, and nowhere else. */
  ghost predicate IsPending(s: System, id: string) {
    id in s.msgs && s.msgs[id].status == Pending && OnceListed(s, id) && InNoSet(s, id) && HeldByNone(s, id)
  }

  /** Being worked on: in flight, in its own set only, in the hands of exactly one process. */
  ghost predicate IsInFlight(s: System, id: string) {
    id in s.msgs && s.msgs[id].status == InFlight && OffLists(s, id) && InOwnSet(s, id) && HeldOnce(s, id)
  }

  ghost predicate IsDropped(s: System, id: string) {
    id in s.msgs && s.msgs[id].status == Discarded && OffLists(s, id) && InNoSet(s, id) && HeldByNone(s, id)
  }

  ghost predicate IsErased(s: System, id: string) {
    id !in s.msgs && id !in s.index && OffLists(s, id) && InNoSet(s, id) && HeldByNone(s, id)
  }

  lemma ListedOnce(s: System, id: string)
    requires Inv(s) && id in s.place && s.place[id].Listed?
    ensures id in s.index && OnceListed(s, id)
  {
    assert Fits(s, id, s.place[id]);
    var own := Key(s.index[id]);
    assert own in s.pending && ListOk(s, own, s.pending[own]);
    forall k ensures id in List(s.pending, k) <==> k == own {
      if id in List(s.pending, k) {
        OnListIsListed(s, id, k);
      }
    }
  }

  lemma UnlistedIsOffLists(s: System, id: string)
    requires Inv(s) && id in s.place && !s.place[id].Listed?
    ensures OffLists(s, id)
  {
    forall k ensures id !in List(s.pending, k) {
      if id in List(s.pending, k) {
        OnListIsListed(s, id, k);
      }
    }
  }

  lemma UnownedIsHeldByNone(s: System, id: string)
    requires Inv(s) && id in s.place && !s.place[id].Owned?
    ensures HeldByNone(s, id)
  {
    forall p | 0 <= p < |s.procs| ensures id !in s.procs[p].held {
      if id in s.procs[p].held {
        HolderOwns(s, p, id);
      }
    }
  }

  lemma OwnedIsHeldOnce(s: System, id: string)
    requires Inv(s) && id in s.place && s.place[id].Owned? && forall p :: 0 <= p < |s.procs| ==> s.procs[p].pc.Idle?
    ensures s.place[id].shape == HELD && HeldOnce(s, id)
  {
    var p := s.place[id].p;
    assert Backed(s, id, s.place[id]);
    HolderOwns(s, p, id);
    forall q | 0 <= q < |s.procs| && id in s.procs[q].held ensures q == p {
      HolderOwns(s, q, id);
    }
  }

  /**
   * Between operations every id ever drawn is pending, in flight, discarded or erased by an ack, or a crash lost it.
   */
  lemma QuiescentPlaces(n: nat, steps: seq<Step>, id: string)
    requires var s := After(Init(n), steps); id in s.place && forall p :: 0 <= p < |s.procs| ==> s.procs[p].pc.Idle?
    ensures var s := After(Init(n), steps);
            || IsPending(s, id) || IsInFlight(s, id) || IsDropped(s, id) || IsErased(s, id)
            || s.place[id].Lost?
  {
    var s := After(Init(n), steps);
    InitInv(n);
    RunKeepsInv(Init(n), steps);
    assert Fits(s, id, s.place[id]);
    match s.place[id]
    case Listed =>
      ListedOnce(s, id);
      UnownedIsHeldByNone(s, id);
    case Owned(_, _) =>
      UnlistedIsOffLists(s, id);
      OwnedIsHeldOnce(s, id);
    case Lost(_) =>
    case Dropped =>
      UnlistedIsOffLists(s, id);
      UnownedIsHeldByNone(s, id);
    case Gone =>
      UnlistedIsOffLists(s, id);
      UnownedIsHeldByNone(s, id);
  }

  // ---- Crashes, and only they, lose messages ----

  /** The id a process's next command may move. */
  function Touched(s: System, pc: Pc): Option<string> {
    if pc.Pop? then
      if List(s.pending, Key(pc.own)) == [] then None else Some(List(s.pending, Key(pc.own))[0])
    else if Working(pc).Some? then Some(Working(pc).value.0)
    else None
  }

  ghost predicate MovesOnly(s: System, s': System, id: string, touched: Option<string>) {
    || ((id in s'.place <==> id in s.place) && (id in s.place ==> s'.place[id] == s.place[id]))
    || (touched == Some(id) && id in s'.place && !s'.place[id].Lost?)
  }

  lemma EnqueueMoves(s: System, p: nat, now: int, id: string)
    requires p < |s.procs| && (s.procs[p].pc.SetIndex? || s.procs[p].pc.SetNew? || s.procs[p].pc.PushNew?)
    ensures MovesOnly(s, Command(s, p, now), id, Touched(s, s.procs[p].pc))
  {
  }

  lemma PopMoves(s: System, p: nat, now: int, id: string)
    requires p < |s.procs| && (s.procs[p].pc.ReadLength? || s.procs[p].pc.Pop? || s.procs[p].pc.Load?)
    ensures MovesOnly(s, Command(s, p, now), id, Touched(s, s.procs[p].pc))
  {
  }

  lemma TakeMoves(s: System, p: nat, now: int, id: string)
    requires p < |s.procs| && (s.procs[p].pc.PushBack? || s.procs[p].pc.MarkInFlight? || s.procs[p].pc.AddInFlight?)
    ensures MovesOnly(s, Command(s, p, now), id, Touched(s, s.procs[p].pc))
  {
  }

  lemma AckMoves(s: System, p: nat, now: int, id: string)
    requires p < |s.procs|
    requires var pc := s.procs[p].pc; pc.AckIndex? || pc.AckLoad? || pc.AckRemove? || pc.AckDelete? || pc.AckUnindex?
    ensures MovesOnly(s, Command(s, p, now), id, Touched(s, s.procs[p].pc))
  {
  }

  lemma NackCheckMoves(s: System, p: nat, now: int, id: string)
    requires p < |s.procs| && (s.procs[p].pc.NackIndex? || s.procs[p].pc.NackLoad? || s.procs[p].pc.NackPush?)
    ensures MovesOnly(s, Command(s, p, now), id, Touched(s, s.procs[p].pc))
  {
  }

  lemma NackMoves(s: System, p: nat, now: int, id: string)
    requires p < |s.procs| && (s.procs[p].pc.NackSave? || s.procs[p].pc.NackRemove?)
    ensures MovesOnly(s, Command(s, p, now), id, Touched(s, s.procs[p].pc))
  {
  }

  lemma CommandMoves(s: System, p: nat, now: int, id: string)
    requires p < |s.procs|
    ensures MovesOnly(s, Command(s, p, now), id, Touched(s, s.procs[p].pc))
  {
    var pc := s.procs[p].pc;
    if pc.SetIndex? || pc.SetNew? || pc.PushNew? {
      EnqueueMoves(s, p, now, id);
    } else if pc.ReadLength? || pc.Pop? || pc.Load? {
      PopMoves(s, p, now, id);
    } else if pc.PushBack? || pc.MarkInFlight? || pc.AddInFlight? {
      TakeMoves(s, p, now, id);
    } else if pc.AckIndex? || pc.AckLoad? || pc.AckRemove? || pc.AckDelete? || pc.AckUnindex? {
      AckMoves(s, p, now, id);
    } else if pc.NackIndex? || pc.NackLoad? || pc.NackPush? {
      NackCheckMoves(s, p, now, id);
    } else if pc.NackSave? || pc.NackRemove? {
      NackMoves(s, p, now, id);
    }
  }

  /** Only a crash makes an id lost. */
  lemma StepLosesNone(s: System, step: Step, id: string)
    requires !step.Crash? && id in Next(s, step).place && Next(s, step).place[id].Lost?
    ensures id in s.place && s.place[id].Lost?
  {
    if step.Issue? && step.p < |s.procs| {
      CommandMoves(s, step.p, step.now, id);
    }
  }

  lemma {:induction false} NoCrashNoLoss(s: System, steps: seq<Step>)
    requires forall id :: id in s.place ==> !s.place[id].Lost?
    requires forall i :: 0 <= i < |steps| ==> !steps[i].Crash?
    ensures forall id :: id in After(s, steps).place ==> !After(s, steps).place[id].Lost?
    decreases |steps|
  {
    if steps != [] {
      assert !steps[0].Crash?;
      var s' := Next(s, steps[0]);
      forall id | id in s'.place ensures !s'.place[id].Lost? {
        if s'.place[id].Lost? {
          StepLosesNone(s, steps[0], id);
        }
      }
      NoCrashNoLoss(s', steps[1..]);
    }
  }

  /** Without crashes, between operations every stored message that is not discarded is pending or in flight. */
  lemma LiveMessagesAreSomewhere(n: nat, steps: seq<Step>, id: string)
    requires forall i :: 0 <= i < |steps| ==> !steps[i].Crash?
    requires var s := After(Init(n), steps);
             && id in s.msgs && s.msgs[id].status != Discarded
             && forall p :: 0 <= p < |s.procs| ==> s.procs[p].pc.Idle?
    ensures var s := After(Init(n), steps);
            IsPending(s, id) != IsInFlight(s, id)
  {
    InitInv(n);
    RunKeepsInv(Init(n), steps);
    NoCrashNoLoss(Init(n), steps);
    QuiescentPlaces(n, steps, id);
  }

  /** What a process was working on when it crashed is never listed and never held again: nothing puts it back. */
  lemma {:induction false} LostForever(s: System, steps: seq<Step>, id: string)
    requires Inv(s) && id in s.place && s.place[id].Lost?
    ensures var s' := After(s, steps); OffLists(s', id) && HeldByNone(s', id)
    decreases |steps|
  {
    if steps == [] {
      UnlistedIsOffLists(s, id);
      UnownedIsHeldByNone(s, id);
    } else {
      NextKeepsInv(s, steps[0]);
      LostStaysLost(s, steps[0], id);
      LostForever(Next(s, steps[0]), steps[1..], id);
    }
  }

  lemma LostStaysLost(s: System, step: Step, id: string)
    requires Inv(s) && id in s.place && s.place[id].Lost?
    ensures id in Next(s, step).place && Next(s, step).place[id].Lost?
  {
    if step.Issue? && step.p < |s.procs| {
      CommandMoves(s, step.p, step.now, id);
      if Touched(s, s.procs[step.p].pc) == Some(id) {
        TouchedIsNotLost(s, step.p);
      }
    }
  }

  lemma TouchedIsNotLost(s: System, p: nat)
    requires Inv(s) && p < |s.procs| && Touched(s, s.procs[p].pc).Some?
    ensures var id := Touched(s, s.procs[p].pc).value; id in s.place && !s.place[id].Lost?
  {
    var pc := s.procs[p].pc;
    assert ProcOk(s, p, s.procs[p]);
    if pc.Pop? {
      OnListIsListed(s, List(s.pending, Key(pc.own))[0], Key(pc.own));
    }
  }

  /** A crash loses exactly what the process held or was working on. */
  lemma CrashLoses(n: nat, steps: seq<Step>, p: nat, id: string)
    requires var s := After(Init(n), steps); p < |s.procs| && id in s.place && !s.place[id].Lost?
    ensures var s := After(Init(n), steps);
            Next(s, Crash(p)).place[id].Lost? <==>
              id in s.procs[p].held || (Working(s.procs[p].pc).Some? && Working(s.procs[p].pc).value.0 == id)
  {
    var s := After(Init(n), steps);
    InitInv(n);
    RunKeepsInv(Init(n), steps);
    assert Backed(s, id, s.place[id]) && ProcOk(s, p, s.procs[p]);
  }
}
