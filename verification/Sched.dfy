/**
 Threads and queues in M:1 mode (one native thread): what the scheduler loop,
 the event manager, spawn, exit, join, cancel, suspend and resume do to them.
 */
module Sched {
  import opened Basics
  import opened PriorityList
  import opened SchedQueue

  datatype TState = New | Ready | Waiting | Exit | Dead

  /** Where the back pointer of a thread's queue node points. */
  datatype Place = NQ | RQ | WQ | SQ | DQ | Nowhere

  datatype Tcb = Tcb(
    state: TState,
    place: Place,
    prio: int,
    eprio: int,
    joinable: bool,
    cancelReq: bool,
    cancelEnabled: bool,
    cancelAsync: bool,
    waited: bool,                // waited_native is set
    joinedThread: Option<Tid>,   // whom to wake when this thread ends
    joinedCount: int,
    joining: Option<Tid>,        // the thread is inside pth_join for this one
    atPoint: bool,               // inside another pth_wait whose return is a cancellation point
    joinArg: int)

  datatype Sched = Sched(
    nq: Queue, rq: Queue, wq: Queue, sq: Queue, dq: Queue,
    current: Option<Tid>,
    running: bool,               // the current thread, not the scheduler, has control
    tcb: map<Tid, Tcb>,
    count: int)

  /** What a call returns; BLOCKED when it waits, ENDED when it ends the process and never returns. */
  datatype Code = OK | EINVAL | EPERM | ESRCH | EDEADLK | TRUE | FALSE | BLOCKED | ENDED

  const MAIN: Tid := 0

  ghost predicate FitsEntry(tcb: map<Tid, Tcb>, e: Entry<Tid>, pl: Place) {
    e.item in tcb && tcb[e.item].place == pl && tcb[e.item].eprio == e.prio
  }

  /** The queue holds exactly the threads whose back pointer names it, ordered by effective priority. */
  ghost predicate Backed(tcb: map<Tid, Tcb>, q: Queue, pl: Place) {
    && GoodQueue(q)
    && (forall e | e in q :: FitsEntry(tcb, e, pl))
    && (forall t | t in tcb && tcb[t].place == pl :: t in Items(q))
  }

  lemma BackedItems(tcb: map<Tid, Tcb>, q: Queue, pl: Place)
    requires Backed(tcb, q, pl)
    ensures forall t :: t in Items(q) <==> t in tcb && tcb[t].place == pl
  {
    forall t | t in Items(q) ensures t in tcb && tcb[t].place == pl {
      var i :| 0 <= i < |q| && q[i].item == t;
      assert q[i] in q && FitsEntry(tcb, q[i], pl);
    }
  }

  ghost predicate StateFits(c: Tcb, running: bool) {
    match c.place
    case NQ => c.state == New
    case RQ => c.state == Ready
    case WQ => c.state == Waiting
    case SQ => c.state in {New, Ready, Waiting}
    case DQ => c.state == Dead
    case Nowhere => if running then c.state == Ready else c.state in {Ready, Waiting, Exit}
  }

  /** Queues and back pointers agree, so every thread is in at most one queue. */
  ghost predicate Queued(s: Sched) {
    && Backed(s.tcb, s.nq, NQ) && Backed(s.tcb, s.rq, RQ) && Backed(s.tcb, s.wq, WQ)
    && Backed(s.tcb, s.sq, SQ) && Backed(s.tcb, s.dq, DQ)
  }

  /** The one thread in no queue is the current one, states fit places, and nobody is miscounted. */
  ghost predicate Accounted(s: Sched) {
    && (s.current.Some? ==> s.current.value in s.tcb)
    && (forall t | t in s.tcb :: s.tcb[t].place == Nowhere <==> s.current == Some(t))
    && (forall t | t in s.tcb :: StateFits(s.tcb[t], s.running))
    && (forall t | t in s.tcb :: s.tcb[t].waited ==> s.tcb[t].place == WQ)
    && s.count == |s.tcb|
    && (s.running ==> s.current.Some?)
  }

  ghost predicate Inv(s: Sched) {
    Queued(s) && Accounted(s)
  }

  /** In M:1 mode the program starts with the main thread alone. */
  function Init(main: Tcb): (s: Sched)
    requires main.state == Ready && !main.waited && main.place == Nowhere
    ensures Inv(s)
  {
    Sched([], [], [], [], [], Some(MAIN), true, map[MAIN := main], 1)
  }

  ghost function Held(q: Queue, t: Tid): nat {
    if t in Items(q) then 1 else 0
  }

  /** Every live thread is in exactly one queue or is the current thread; no dead reference is queued. */
  lemma OnePlace(s: Sched, t: Tid)
    requires Inv(s)
    ensures Held(s.nq, t) + Held(s.rq, t) + Held(s.wq, t) + Held(s.sq, t) + Held(s.dq, t)
            + (if s.current == Some(t) then 1 else 0) == if t in s.tcb then 1 else 0
  {
    BackedItems(s.tcb, s.nq, NQ);
    BackedItems(s.tcb, s.rq, RQ);
    BackedItems(s.tcb, s.wq, WQ);
    BackedItems(s.tcb, s.sq, SQ);
    BackedItems(s.tcb, s.dq, DQ);
  }

  // ---- one thread changes: the invariant survives ----

  /** q loses t or (has) keeps or gains it with effective priority p. */
  ghost predicate Updated(q: Queue, r: Queue, t: Tid, has: bool, p: int) {
    && GoodQueue(r)
    && Items(r) == (if has then Items(q) + {t} else Items(q) - {t})
    && forall e | e in r :: (e in q && e.item != t) || (has && e == Entry(t, p))
  }

  lemma Rebacked(tcb: map<Tid, Tcb>, q: Queue, pl: Place, t: Tid, c: Tcb, r: Queue)
    requires Backed(tcb, q, pl) && Updated(q, r, t, c.place == pl, c.eprio)
    ensures Backed(tcb[t := c], r, pl)
  {
    BackedItems(tcb, q, pl);
    forall e | e in r ensures FitsEntry(tcb[t := c], e, pl) {
      assert e in q && e.item != t ==> FitsEntry(tcb, e, pl);
    }
  }

  lemma Dropped(tcb: map<Tid, Tcb>, q: Queue, pl: Place, t: Tid, r: Queue)
    requires Backed(tcb, q, pl) && Updated(q, r, t, false, 0)
    ensures Backed(tcb - {t}, r, pl)
  {
    BackedItems(tcb, q, pl);
    forall e | e in r ensures FitsEntry(tcb - {t}, e, pl) {
      assert FitsEntry(tcb, e, pl);
    }
  }

  ghost predicate QueuesUpdated(s: Sched, r: Sched, t: Tid, pl: Place, p: int) {
    && Updated(s.nq, r.nq, t, pl == NQ, p) && Updated(s.rq, r.rq, t, pl == RQ, p)
    && Updated(s.wq, r.wq, t, pl == WQ, p) && Updated(s.sq, r.sq, t, pl == SQ, p)
    && Updated(s.dq, r.dq, t, pl == DQ, p)
  }

  ghost predicate ControlFits(s: Sched, r: Sched, t: Tid, here: bool) {
    && r.current == (if here then Some(t) else if s.current == Some(t) then None else s.current)
    && (here ==> s.current.None? || s.current == Some(t))
    && (r.running == s.running || r.current.None? || r.current == Some(t))
    && (r.running ==> r.current.Some?)
  }

  lemma UpdateQueued(s: Sched, r: Sched, t: Tid, c: Tcb)
    requires Queued(s) && r.tcb == s.tcb[t := c] && QueuesUpdated(s, r, t, c.place, c.eprio)
    ensures Queued(r)
  {
    Rebacked(s.tcb, s.nq, NQ, t, c, r.nq);
    Rebacked(s.tcb, s.rq, RQ, t, c, r.rq);
    Rebacked(s.tcb, s.wq, WQ, t, c, r.wq);
    Rebacked(s.tcb, s.sq, SQ, t, c, r.sq);
    Rebacked(s.tcb, s.dq, DQ, t, c, r.dq);
  }

  /** Whoever is not the one that changes: where it is and what its state says still fit who has control. */
  lemma OtherFits(s: Sched, r: Sched, t: Tid, here: bool, u: Tid)
    requires Accounted(s) && ControlFits(s, r, t, here) && u in s.tcb && u != t
    ensures s.tcb[u].place == Nowhere <==> r.current == Some(u)
    ensures StateFits(s.tcb[u], r.running)
  {
    assert StateFits(s.tcb[u], s.running);
  }

  lemma UpdateAccounted(s: Sched, r: Sched, t: Tid, c: Tcb)
    requires Accounted(s) && r.tcb == s.tcb[t := c] && ControlFits(s, r, t, c.place == Nowhere)
    requires StateFits(c, r.running) && (c.waited ==> c.place == WQ)
    requires r.count == s.count + if t in s.tcb then 0 else 1
    ensures Accounted(r)
  {
    assert r.tcb.Keys == s.tcb.Keys + {t};
    forall u | u in r.tcb && u != t
      ensures r.tcb[u].place == Nowhere <==> r.current == Some(u)
      ensures StateFits(r.tcb[u], r.running)
    {
      OtherFits(s, r, t, c.place == Nowhere, u);
    }
  }

  /** One thread is created or changed and moved; everybody else stays put. */
  lemma UpdateKeeps(s: Sched, r: Sched, t: Tid, c: Tcb)
    requires Inv(s) && r.tcb == s.tcb[t := c]
    requires QueuesUpdated(s, r, t, c.place, c.eprio) && ControlFits(s, r, t, c.place == Nowhere)
    requires StateFits(c, r.running) && (c.waited ==> c.place == WQ)
    requires r.count == s.count + if t in s.tcb then 0 else 1
    ensures Inv(r)
  {
    UpdateQueued(s, r, t, c);
    UpdateAccounted(s, r, t, c);
  }

  lemma FreeAccounted(s: Sched, r: Sched, t: Tid)
    requires Accounted(s) && t in s.tcb && r.tcb == s.tcb - {t} && ControlFits(s, r, t, false)
    requires r.count == s.count - 1
    ensures Accounted(r)
  {
    assert r.tcb.Keys == s.tcb.Keys - {t};
    forall u | u in r.tcb
      ensures r.tcb[u].place == Nowhere <==> r.current == Some(u)
      ensures StateFits(r.tcb[u], r.running)
    {
      OtherFits(s, r, t, false, u);
    }
  }

  /** One thread is freed. */
  lemma FreeKeeps(s: Sched, r: Sched, t: Tid)
    requires Inv(s) && t in s.tcb && r.tcb == s.tcb - {t}
    requires QueuesUpdated(s, r, t, Nowhere, 0) && ControlFits(s, r, t, false)
    requires r.count == s.count - 1
    ensures Inv(r)
  {
    Dropped(s.tcb, s.nq, NQ, t, r.nq);
    Dropped(s.tcb, s.rq, RQ, t, r.rq);
    Dropped(s.tcb, s.wq, WQ, t, r.wq);
    Dropped(s.tcb, s.sq, SQ, t, r.sq);
    Dropped(s.tcb, s.dq, DQ, t, r.dq);
    FreeAccounted(s, r, t);
  }

  // ---- moving a thread ----

  /** The queue that the back pointer names holds the thread. */
  predicate InPlace(s: Sched, t: Tid) {
    t in s.tcb &&
    match s.tcb[t].place
    case NQ => Holds(s.nq, t)
    case RQ => Holds(s.rq, t)
    case WQ => Holds(s.wq, t)
    case SQ => Holds(s.sq, t)
    case DQ => Holds(s.dq, t)
    case Nowhere => true
  }

  lemma QueuedInPlace(s: Sched, t: Tid)
    requires Queued(s) && t in s.tcb
    ensures InPlace(s, t)
  {
  }

  /** pqueue_delete_node: out of the queue the back pointer names. */
  function Unlink(s: Sched, t: Tid): Sched
    requires InPlace(s, t)
  {
    match s.tcb[t].place
    case NQ => s.(nq := Delete(s.nq, t))
    case RQ => s.(rq := Delete(s.rq, t))
    case WQ => s.(wq := Delete(s.wq, t))
    case SQ => s.(sq := Delete(s.sq, t))
    case DQ => s.(dq := Delete(s.dq, t))
    case Nowhere => s
  }

  /** pqueue_append_node. */
  function Link(s: Sched, t: Tid, pl: Place, p: int): Sched {
    match pl
    case NQ => s.(nq := Append(s.nq, p, t))
    case RQ => s.(rq := Append(s.rq, p, t))
    case WQ => s.(wq := Append(s.wq, p, t))
    case SQ => s.(sq := Append(s.sq, p, t))
    case DQ => s.(dq := Append(s.dq, p, t))
    case Nowhere => s
  }

  lemma NotIn(tcb: map<Tid, Tcb>, q: Queue, pl: Place, t: Tid)
    requires Backed(tcb, q, pl)
    ensures t !in tcb || tcb[t].place != pl ==> Updated(q, q, t, false, 0)
  {
    BackedItems(tcb, q, pl);
    forall e | e in q ensures FitsEntry(tcb, e, pl) {
    }
  }

  /** Nobody is queued twice: a thread is only in the queue its back pointer names. */
  lemma OutOfOthers(s: Sched, t: Tid)
    requires Queued(s)
    ensures t !in s.tcb || s.tcb[t].place != NQ ==> Updated(s.nq, s.nq, t, false, 0)
    ensures t !in s.tcb || s.tcb[t].place != RQ ==> Updated(s.rq, s.rq, t, false, 0)
    ensures t !in s.tcb || s.tcb[t].place != WQ ==> Updated(s.wq, s.wq, t, false, 0)
    ensures t !in s.tcb || s.tcb[t].place != SQ ==> Updated(s.sq, s.sq, t, false, 0)
    ensures t !in s.tcb || s.tcb[t].place != DQ ==> Updated(s.dq, s.dq, t, false, 0)
  {
    NotIn(s.tcb, s.nq, NQ, t);
    NotIn(s.tcb, s.rq, RQ, t);
    NotIn(s.tcb, s.wq, WQ, t);
    NotIn(s.tcb, s.sq, SQ, t);
    NotIn(s.tcb, s.dq, DQ, t);
  }

  lemma UnlinkUpdates(s: Sched, t: Tid)
    requires Queued(s) && t in s.tcb
    ensures InPlace(s, t) && QueuesUpdated(s, Unlink(s, t), t, Nowhere, 0)
  {
    OutOfOthers(s, t);
  }

  lemma LinkUpdates(s: Sched, u: Sched, t: Tid, pl: Place, p: int)
    requires QueuesUpdated(s, u, t, Nowhere, 0)
    ensures QueuesUpdated(s, Link(u, t, pl, p), t, pl, p)
  {
  }

  function CurrentAfter(s: Sched, t: Tid, pl: Place): Option<Tid> {
    if pl == Nowhere then Some(t) else if s.current == Some(t) then None else s.current
  }

  /** What may be done to one thread: contents that fit, and control that fits the place. */
  ghost predicate MayMove(s: Sched, t: Tid, c: Tcb, running: bool) {
    && t in s.tcb
    && StateFits(c, running)
    && (c.waited ==> c.place == WQ)
    && (c.place == Nowhere ==> s.current.None? || s.current == Some(t))
    && (running == s.running || s.current.None? || s.current == Some(t))
    && (running ==> CurrentAfter(s, t, c.place).Some?)
  }

  function Moved(s: Sched, t: Tid, c: Tcb, running: bool): (r: Sched)
    requires InPlace(s, t)
  {
    Link(Unlink(s, t), t, c.place, c.eprio).(
      tcb := s.tcb[t := c], current := CurrentAfter(s, t, c.place), running := running)
  }

  lemma MovedKeeps(s: Sched, t: Tid, c: Tcb, running: bool)
    requires Inv(s) && MayMove(s, t, c, running)
    ensures InPlace(s, t) && Inv(Moved(s, t, c, running))
  {
    UnlinkUpdates(s, t);
    LinkUpdates(s, Unlink(s, t), t, c.place, c.eprio);
    UpdateKeeps(s, Moved(s, t, c, running), t, c);
  }

  /** Take a thread out of its queue and append it, with its new contents, where those say. */
  function Move(s: Sched, t: Tid, c: Tcb, running: bool): (r: Sched)
    requires Inv(s) && MayMove(s, t, c, running)
    ensures Inv(r) && r.tcb == s.tcb[t := c] && r.running == running && r.count == s.count
    ensures r.current == CurrentAfter(s, t, c.place)
  {
    MovedKeeps(s, t, c, running);
    Moved(s, t, c, running)
  }

  /** pth_tcb_free of a thread that has left, or is taken from, its queue. */
  function Free(s: Sched, t: Tid): (r: Sched)
    requires Inv(s) && t in s.tcb && (s.running ==> s.current != Some(t))
    ensures Inv(r) && r.tcb == s.tcb - {t} && r.running == s.running
    ensures r.current == if s.current == Some(t) then None else s.current
  {
    UnlinkUpdates(s, t);
    var u := Unlink(s, t);
    var r := u.(tcb := s.tcb - {t}, count := s.count - 1,
                current := if s.current == Some(t) then None else s.current);
    FreeKeeps(s, r, t);
    r
  }

  function Woken(c: Tcb): Tcb {
    c.(waited := false, state := Ready, place := RQ, eprio := c.prio)
  }

  /** Wait queue to ready queue: what every waker does. */
  function Wake(s: Sched, t: Tid): (r: Sched)
    requires Inv(s) && t in s.tcb && s.tcb[t].place == WQ
    ensures Inv(r) && r.running == s.running && r.current == s.current
    ensures r.tcb == s.tcb[t := Woken(s.tcb[t])]
  {
    Move(s, t, Woken(s.tcb[t]), s.running)
  }
}
