/**
 The operations of the M:1 scheduler on threads and queues. Each keeps the
 partition of threads over queues.
 */
module SchedOps {
  import opened Basics
  import opened PriorityList
  import opened SchedQueue
  import opened Sched

  const CANCELED := -1

  datatype Outcome = Outcome(s: Sched, rc: Code, value: int)

  function Self(s: Sched): Tid
    requires Inv(s) && s.running
    ensures Self(s) in s.tcb
  {
    s.current.value
  }

  // ---- calls made by the running thread ----

  /** The control block of a thread that pth_spawn_cb has just filled in. */
  function Fresh(c: Tcb, suspended: bool): Tcb {
    c.(state := New, place := if suspended then SQ else NQ, cancelReq := false, waited := false,
       joinedThread := None, joinedCount := 0, joining := None, atPoint := false)
  }

  lemma SpawnKeeps(s: Sched, t: Tid, n: Tcb)
    requires Inv(s) && t !in s.tcb && n.state == New && !n.waited && (n.place == NQ || n.place == SQ)
    ensures Inv(Link(s, t, n.place, n.eprio).(tcb := s.tcb[t := n], count := s.count + 1))
  {
    var r := Link(s, t, n.place, n.eprio).(tcb := s.tcb[t := n], count := s.count + 1);
    OutOfOthers(s, t);
    LinkUpdates(s, s, t, n.place, n.eprio);
    UpdateKeeps(s, r, t, n);
  }

  /** pth_spawn_cb from the point where the control block exists. */
  function Spawn(s: Sched, t: Tid, c: Tcb, suspended: bool): (r: Sched)
    requires Inv(s) && s.running && t !in s.tcb
    ensures Inv(r) && r.running && r.current == s.current && r.tcb == s.tcb[t := Fresh(c, suspended)]
  {
    var n := Fresh(c, suspended);
    SpawnKeeps(s, t, n);
    Link(s, t, n.place, n.eprio).(tcb := s.tcb[t := n], count := s.count + 1)
  }

  /** pth_wait: the caller is marked waiting and control goes to the scheduler; point for most kinds of events. */
  function Block(s: Sched, point: bool): (r: Sched)
    requires Inv(s) && s.running
    ensures Inv(r) && !r.running && r.current == s.current
    ensures r.tcb == s.tcb[Self(s) := s.tcb[Self(s)].(state := Waiting, atPoint := point)]
  {
    Move(s, Self(s), s.tcb[Self(s)].(state := Waiting, atPoint := point), false)
  }

  // ---- the end of a thread, or of the process ----

  /** Threads that have not ended are left, and it is not the main thread that simply returns. */
  predicate GoesOn(s: Sched, wait: bool) {
    s.count - |s.dq| > 1 && (s.current == Some(MAIN) ==> wait)
  }

  ghost function Alive(tcb: map<Tid, Tcb>): set<Tid> {
    set u | u in tcb && tcb[u].state != Dead
  }

  lemma DeadIsQueued(s: Sched, t: Tid)
    requires Inv(s) && t in s.tcb
    ensures s.tcb[t].state == Dead <==> s.tcb[t].place == DQ
    ensures s.tcb[t].state == Dead ==> s.current != Some(t)
  {
    assert StateFits(s.tcb[t], s.running);
  }

  lemma {:induction false} AsManyItems(q: Queue)
    requires NoDuplicates(q)
    ensures |Items(q)| == |q|
  {
    if q != [] {
      var rest := q[..|q| - 1];
      AsManyItems(rest);
      forall x | x in Items(q) ensures x in Items(rest) + {q[|q| - 1].item} {
        var i :| 0 <= i < |q| && q[i].item == x;
        assert i < |rest| ==> rest[i].item == x;
      }
      assert Items(q) == Items(rest) + {q[|q| - 1].item};
    }
  }

  /** pth_active_threads counts the threads that have not ended. */
  lemma ActiveAreAlive(s: Sched)
    requires Inv(s)
    ensures s.count - |s.dq| == |Alive(s.tcb)|
  {
    AsManyItems(s.dq);
    BackedItems(s.tcb, s.dq, DQ);
    forall u ensures u in s.tcb.Keys <==> u in Alive(s.tcb) + Items(s.dq) {
      if u in s.tcb {
        DeadIsQueued(s, u);
      }
    }
    assert s.tcb.Keys == Alive(s.tcb) + Items(s.dq);
    forall u | u in Items(s.dq) ensures u !in Alive(s.tcb) {
      DeadIsQueued(s, u);
    }
  }

  lemma OthersLive(s: Sched, h: Tid, t: Tid)
    requires Inv(s) && h != t && {h, t} <= Alive(s.tcb)
    ensures s.count - |s.dq| > 1
  {
    ActiveAreAlive(s);
    Subset({h, t}, Alive(s.tcb));
    assert |{h, t}| == 2;
  }

  /** The caller goes to the scheduler to be reaped. */
  function ExitSelf(s: Sched, value: int): (r: Sched)
    requires Inv(s) && s.running
    ensures Inv(r) && !r.running && r.current == s.current
    ensures r.tcb == s.tcb[Self(s) := s.tcb[Self(s)].(state := Exit, joinArg := value)]
  {
    Move(s, Self(s), s.tcb[Self(s)].(state := Exit, joinArg := value), false)
  }

  /** pth_exit. */
  function Leave(s: Sched, value: int, wait: bool): (o: Outcome)
    requires Inv(s) && s.running
    ensures Inv(o.s)
    ensures o.rc == ENDED <==> !GoesOn(s, wait)
    ensures o.rc != ENDED ==> !o.s.running && o.s.current == s.current
    ensures o.rc != ENDED ==> o.s.tcb == s.tcb[Self(s) := s.tcb[Self(s)].(state := Exit, joinArg := value)]
  {
    if GoesOn(s, wait) then Outcome(ExitSelf(s, value), OK, 0) else Outcome(s, ENDED, 0)
  }

  /** The process ends with the last thread that has not, and when the main thread returns. */
  lemma LeaveEndsProcessIff(s: Sched, value: int, wait: bool)
    requires Inv(s) && s.running
    ensures Leave(s, value, wait).rc == ENDED <==>
      || (Self(s) == MAIN && !wait)
      || forall u | u in s.tcb && u != Self(s) :: s.tcb[u].state == Dead
  {
    ActiveAreAlive(s);
    DeadIsQueued(s, Self(s));
    LastAliveIff(s.tcb, Self(s));
  }

  lemma LastAliveIff(tcb: map<Tid, Tcb>, me: Tid)
    requires me in Alive(tcb)
    ensures |Alive(tcb)| <= 1 <==> forall u | u in tcb && u != me :: tcb[u].state == Dead
  {
    if u :| u in tcb && u != me && tcb[u].state != Dead {
      Subset({me, u}, Alive(tcb));
      assert |{me, u}| == 2;
    } else {
      assert Alive(tcb) == {me};
    }
  }

  function FavorIn(q: Queue, t: Tid): Queue {
    if Holds(q, t) then Favor(q, t) else q
  }

  lemma FavorBacked(tcb: map<Tid, Tcb>, q: Queue, pl: Place, t: Tid)
    requires Backed(tcb, q, pl)
    ensures Backed(tcb, FavorIn(q, t), pl)
  {
  }

  lemma FavorKeeps(s: Sched, r: Sched, t: Tid)
    requires Inv(s)
    requires r == s.(nq := FavorIn(s.nq, t), rq := FavorIn(s.rq, t), wq := FavorIn(s.wq, t),
                     sq := FavorIn(s.sq, t), dq := FavorIn(s.dq, t))
    ensures Inv(r)
  {
    FavorBacked(s.tcb, s.nq, NQ, t);
    FavorBacked(s.tcb, s.rq, RQ, t);
    FavorBacked(s.tcb, s.wq, WQ, t);
    FavorBacked(s.tcb, s.sq, SQ, t);
    FavorBacked(s.tcb, s.dq, DQ, t);
  }

  /** pqueue_favor: in whichever queue the thread is. */
  function FavorThread(s: Sched, t: Tid): (r: Sched)
    requires Inv(s)
    ensures Inv(r) && r.tcb == s.tcb && r.current == s.current && r.running == s.running
  {
    var r := s.(nq := FavorIn(s.nq, t), rq := FavorIn(s.rq, t), wq := FavorIn(s.wq, t),
                sq := FavorIn(s.sq, t), dq := FavorIn(s.dq, t));
    FavorKeeps(s, r, t);
    r
  }

  /** Control goes to the scheduler; the caller stays ready. */
  function SwitchOut(s: Sched): (r: Sched)
    requires Inv(s) && s.running
    ensures Inv(r) && !r.running && r.tcb == s.tcb && r.current == s.current
  {
    var r := Move(s, Self(s), s.tcb[Self(s)], false);
    assert r.tcb == s.tcb;
    r
  }

  /** pth_yield. */
  function Yield(s: Sched, to: Option<Tid>): (r: Sched)
    requires Inv(s) && s.running && (to.Some? ==> to.value in s.tcb)
    ensures Inv(r) && r.tcb == s.tcb && r.current == s.current
    ensures r.running <==> to == s.current
  {
    if to == Some(Self(s)) then s
    else SwitchOut(if to.Some? then FavorThread(s, to.value) else s)
  }

  /** The thread yielded to, if it is ready, ends up first or second among the ready ones of its priority. */
  lemma YieldFavors(s: Sched, to: Tid) returns (k: nat)
    requires Inv(s) && s.running && to in s.tcb && s.tcb[to].place == RQ
    ensures var r := Yield(s, Some(to));
      !r.running && k < |r.rq| && r.rq[k].item == to && (k >= 2 ==> r.rq[k - 2].prio > r.rq[k].prio)
  {
    BackedItems(s.tcb, s.rq, RQ);
    k := FavorIsNear(s.rq, to);
  }

  /** The queue pth_suspend and pth_resume choose from the state field. */
  function Home(st: TState): Place {
    match st case New => NQ case Ready => RQ case Waiting => WQ case _ => Nowhere
  }

  /** pth_suspend. */
  function Suspend(s: Sched, t: Option<Tid>): (o: Outcome)
    requires Inv(s) && s.running && (t.Some? ==> t.value in s.tcb)
    ensures Inv(o.s) && o.s.running
    ensures o.rc == OK ==> t.Some? && s.tcb[t.value].state != Dead && s.tcb[t.value].place == Home(s.tcb[t.value].state)
    ensures o.rc == OK ==> o.s.tcb == s.tcb[t.value := s.tcb[t.value].(place := SQ, waited := false)]
    ensures o.rc != OK ==> o.s == s
  {
    if SuspendRefusal(s, t) != OK then Outcome(s, SuspendRefusal(s, t), 0)
    else Outcome(PutAside(s, t.value), OK, 0)
  }

  /** Neither oneself nor a thread that is on no queue for its state. */
  function SuspendRefusal(s: Sched, t: Option<Tid>): Code
    requires t.Some? ==> t.value in s.tcb
  {
    if t.None? then EINVAL
    else if t == s.current || Home(s.tcb[t.value].state) == Nowhere then EPERM
    else if s.tcb[t.value].place != Home(s.tcb[t.value].state) then ESRCH
    else OK
  }

  /** Off its queue and onto the suspended one. */
  function PutAside(s: Sched, t: Tid): (r: Sched)
    requires Inv(s) && s.running && t in s.tcb && s.current != Some(t)
    requires Home(s.tcb[t].state) != Nowhere && s.tcb[t].place == Home(s.tcb[t].state)
    ensures Inv(r) && r.running && r.tcb == s.tcb[t := s.tcb[t].(place := SQ, waited := false)]
  {
    Move(s, t, s.tcb[t].(place := SQ, waited := false), true)
  }

  /** pth_resume: back to the queue its state names, then a yield in its favour. */
  function Resume(s: Sched, t: Option<Tid>): (o: Outcome)
    requires Inv(s) && s.running && (t.Some? ==> t.value in s.tcb)
    ensures Inv(o.s)
    ensures o.rc == OK <==> t.Some? && s.tcb[t.value].place == SQ
    ensures o.rc == OK ==> !o.s.running && o.s.current == s.current
    ensures o.rc == OK ==> o.s.tcb == s.tcb[t.value := s.tcb[t.value].(place := Home(s.tcb[t.value].state))]
    ensures o.rc != OK ==> o.s == s
  {
    if t.None? then Outcome(s, EINVAL, 0)
    else if t == s.current || s.tcb[t.value].place != SQ then Outcome(s, EPERM, 0)
    else
      var c := s.tcb[t.value];
      Outcome(Yield(Move(s, t.value, c.(place := Home(c.state)), true), t), OK, 0)
  }

  lemma ResumeSuspended(tcb: map<Tid, Tcb>, m: Sched, t: Tid)
    requires Inv(m) && m.running && t in tcb && tcb[t].place == Home(tcb[t].state)
    requires m.tcb == tcb[t := tcb[t].(place := SQ, waited := false)]
    ensures var r := Resume(m, Some(t)); r.rc == OK && r.s.tcb == tcb[t := tcb[t].(waited := false)]
  {
    WrittenTwice(tcb, t, tcb[t].(place := SQ, waited := false), tcb[t].(waited := false));
  }

  lemma WrittenTwice(tcb: map<Tid, Tcb>, t: Tid, a: Tcb, b: Tcb)
    ensures tcb[t := a][t := b] == tcb[t := b]
  {
  }

  /** Suspending and resuming brings a thread back to its queue, changed only in that no waker knows it waits. */
  lemma SuspendThenResume(s: Sched, t: Tid)
    requires Inv(s) && s.running && t in s.tcb && Suspend(s, Some(t)).rc == OK
    ensures var r := Resume(Suspend(s, Some(t)).s, Some(t));
      r.rc == OK && r.s.tcb == s.tcb[t := s.tcb[t].(waited := false)]
  {
    ResumeSuspended(s.tcb, Suspend(s, Some(t)).s, t);
  }

  /** A thread that never ran leaves its queue for the dead queue, or goes away when nobody may join it. */
  function CancelNew(s: Sched, t: Tid): (r: Sched)
    requires Inv(s) && s.running && t in s.tcb && s.tcb[t].place == NQ
    ensures Inv(r) && r.running && r.current == s.current
    ensures r.tcb == if !s.tcb[t].joinable then s.tcb - {t}
                     else s.tcb[t := s.tcb[t].(joinArg := CANCELED, state := Dead, place := DQ)]
  {
    if !s.tcb[t].joinable then Free(s, t)
    else Move(s, t, s.tcb[t].(joinArg := CANCELED, state := Dead, place := DQ), true)
  }

  /** pth_cancel_point of a thread that just asked for its own cancellation. */
  function CancelSelf(s: Sched): (r: Sched)
    requires Inv(s) && s.running
    ensures Inv(r)
    ensures r == s.(running := false,
      tcb := s.tcb[Self(s) := s.tcb[Self(s)].(cancelReq := false, state := Exit, joinArg := CANCELED)])
  {
    Move(s, Self(s), s.tcb[Self(s)].(cancelReq := false, state := Exit, joinArg := CANCELED), false)
  }

  /** The caller cancels itself at once, and with that the process. */
  predicate CancelEnds(s: Sched, t: Option<Tid>) {
    && t.Some? && t == s.current && t.value in s.tcb
    && s.tcb[t.value].state != Dead && !s.tcb[t.value].cancelReq
    && s.tcb[t.value].cancelEnabled && s.tcb[t.value].cancelAsync && !GoesOn(s, false)
  }

  function CanceledTcb(tcb: map<Tid, Tcb>, current: Option<Tid>, t: Tid): map<Tid, Tcb>
    requires t in tcb
  {
    var c := tcb[t].(cancelReq := true);
    if tcb[t].state == Dead || tcb[t].cancelReq then tcb
    else if !(c.cancelEnabled && c.cancelAsync) then tcb[t := c]
    else if current == Some(t) then tcb[t := tcb[t].(cancelReq := false, state := Exit, joinArg := CANCELED)]
    else if c.state != New || c.place != NQ then tcb[t := c]
    else if !c.joinable then tcb[t := c] - {t}
    else tcb[t := c][t := c.(joinArg := CANCELED, state := Dead, place := DQ)]
  }

  /** pth_cancel. */
  function Cancel(s: Sched, t: Option<Tid>): (o: Outcome)
    requires Inv(s) && s.running
    ensures Inv(o.s)
    ensures o.rc == FALSE ==> t.None? || t.value !in s.tcb || s.tcb[t.value].place == SQ
    ensures o.rc == ENDED <==> CancelEnds(s, t)
    ensures o.rc != ENDED ==>
      o.s.tcb == if t.Some? && t.value in s.tcb then CanceledTcb(s.tcb, s.current, t.value) else s.tcb
  {
    if t.None? || t.value !in s.tcb then Outcome(s, FALSE, 0)
    else if CancelEnds(s, t) then Outcome(s, ENDED, 0)
    else if s.tcb[t.value].state == Dead || s.tcb[t.value].cancelReq then Outcome(s, TRUE, 0)
    else
      var c := s.tcb[t.value].(cancelReq := true);
      var m := Outcome(Marked(s, t.value, c), TRUE, 0);
      if !(c.cancelEnabled && c.cancelAsync) then m
      else if t == s.current then
        Outcome(CancelSelf(s), TRUE, 0)
      else if c.state != New then m
      else if c.place != NQ then m.(rc := FALSE)
      else Outcome(CancelNew(m.s, t.value), TRUE, 0)
  }

  /** What a request does to the thread it is for; all others stay as they are. */
  lemma CancelEffect(s: Sched, t: Tid, v: Tid)
    requires Inv(s) && s.running && t in s.tcb && s.tcb[t].state != Dead && !s.tcb[t].cancelReq
    ensures var o := Cancel(s, Some(t)); var c := s.tcb[t].(cancelReq := true);
      o.rc == ENDED <==>
        && t == Self(s) && c.cancelEnabled && c.cancelAsync
        && (t == MAIN || forall u | u in s.tcb && u != t :: s.tcb[u].state == Dead)
    ensures var o := Cancel(s, Some(t)); var r := o.s.tcb; var c := s.tcb[t].(cancelReq := true);
      o.rc != ENDED ==>
      && (v != t ==> (v in r <==> v in s.tcb) && (v in s.tcb ==> r[v] == s.tcb[v]))
      && if !(c.cancelEnabled && c.cancelAsync) || (t != Self(s) && c.place != NQ) then t in r && r[t] == c
         else if t == Self(s) then t in r && r[t] == c.(cancelReq := false, state := Exit, joinArg := CANCELED)
         else if c.joinable then t in r && r[t] == c.(state := Dead, place := DQ, joinArg := CANCELED)
         else t !in r
  {
    assert StateFits(s.tcb[t], true);
    CanceledEffect(s.tcb, s.current, t, v);
    if t == Self(s) {
      LeaveEndsProcessIff(s, CANCELED, false);
    }
  }

  lemma CanceledEffect(tcb: map<Tid, Tcb>, current: Option<Tid>, t: Tid, v: Tid)
    requires t in tcb && tcb[t].state != Dead && !tcb[t].cancelReq && (tcb[t].place == NQ ==> tcb[t].state == New)
    ensures var r := CanceledTcb(tcb, current, t); var c := tcb[t].(cancelReq := true);
      && (v != t ==> (v in r <==> v in tcb) && (v in tcb ==> r[v] == tcb[v]))
      && if !(c.cancelEnabled && c.cancelAsync) || (current != Some(t) && c.place != NQ) then t in r && r[t] == c
         else if current == Some(t) then t in r && r[t] == c.(cancelReq := false, state := Exit, joinArg := CANCELED)
         else if c.joinable then t in r && r[t] == c.(state := Dead, place := DQ, joinArg := CANCELED)
         else t !in r
  {
  }

  /** A field of a control block changes; no queue does. */
  function Marked(s: Sched, t: Tid, c: Tcb): (r: Sched)
    requires Inv(s) && t in s.tcb
    requires c.place == s.tcb[t].place && c.state == s.tcb[t].state
    requires c.waited == s.tcb[t].waited && c.eprio == s.tcb[t].eprio
    ensures Inv(r) && r == s.(tcb := s.tcb[t := c])
  {
    var r := s.(tcb := s.tcb[t := c]);
    MarkedKeeps(s, t, c);
    r
  }

  lemma MarkedKeeps(s: Sched, t: Tid, c: Tcb)
    requires Inv(s) && t in s.tcb
    requires c.place == s.tcb[t].place && c.state == s.tcb[t].state
    requires c.waited == s.tcb[t].waited && c.eprio == s.tcb[t].eprio
    ensures Inv(s.(tcb := s.tcb[t := c]))
  {
    var r := s.(tcb := s.tcb[t := c]);
    assert Queued(r) by {
      assert forall e: Entry<Tid>, pl :: FitsEntry(s.tcb, e, pl) ==> FitsEntry(r.tcb, e, pl);
    }
    assert StateFits(s.tcb[t], s.running);
    UpdateAccounted(s, r, t, c);
  }

  /** The second half of pth_join, once the target should be dead. */
  function JoinFinish(s: Sched, t: Tid): (o: Outcome)
    requires Inv(s) && s.running
    ensures Inv(o.s) && o.s.running && o.s.current == s.current
    ensures o.rc == OK ==> t in s.tcb && s.tcb[t].place == DQ && o.value == s.tcb[t].joinArg && o.s.tcb == s.tcb - {t}
    ensures o.rc != OK ==> o.rc == ESRCH && o.s.tcb == if t in s.tcb && s.tcb[t].place == DQ
                             then s.tcb[t := s.tcb[t].(joinedCount := s.tcb[t].joinedCount - 1)] else s.tcb
  {
    if t !in s.tcb || s.tcb[t].place != DQ then Outcome(s, ESRCH, 0)
    else
      var n := s.tcb[t].joinedCount - 1;
      if n > 0 then Outcome(Marked(s, t, s.tcb[t].(joinedCount := n)), ESRCH, 0)
      else Outcome(Free(s, t), OK, s.tcb[t].joinArg)
  }

  /** The target remembers whom to wake and how many wait. */
  function Noted(tcb: map<Tid, Tcb>, me: Tid, t: Tid): map<Tid, Tcb>
    requires t in tcb
  {
    tcb[t := AwaitedBy(tcb[t], me)]
  }

  function AwaitedBy(c: Tcb, me: Tid): (r: Tcb)
    ensures r.place == c.place && r.state == c.state && r.waited == c.waited && r.eprio == c.eprio
  {
    c.(joinedThread := Some(me), joinedCount := c.joinedCount + 1)
  }

  /** The target has its note; the caller waits for it. */
  function Recorded(tcb: map<Tid, Tcb>, me: Tid, t: Tid): map<Tid, Tcb>
    requires me in tcb && t in tcb
  {
    Noted(tcb, me, t)[me := tcb[me].(joining := Some(t), state := Waiting)]
  }

  function Sleep(s: Sched, t: Tid): (r: Sched)
    requires Inv(s) && s.running
    ensures Inv(r) && !r.running && r.current == s.current
    ensures r.tcb == s.tcb[Self(s) := s.tcb[Self(s)].(joining := Some(t), state := Waiting)]
  {
    Move(s, Self(s), s.tcb[Self(s)].(joining := Some(t), state := Waiting), false)
  }

  function JoinMark(s: Sched, t: Tid): (r: Sched)
    requires Inv(s) && s.running && t in s.tcb && t != Self(s)
    ensures Inv(r) && r.running && r.current == s.current
    ensures r.tcb == Noted(s.tcb, Self(s), t)
  {
    Marked(s, t, AwaitedBy(s.tcb[t], Self(s)))
  }

  function JoinWait(s: Sched, t: Tid): (r: Sched)
    requires Inv(s) && s.running && t in s.tcb && t != Self(s)
    ensures Inv(r) && !r.running && r.current == s.current
    ensures r.tcb == Recorded(s.tcb, Self(s), t)
  {
    var m := JoinMark(s, t);
    SleepMarked(m, s.tcb, Self(s), t)
  }

  function SleepMarked(m: Sched, tcb: map<Tid, Tcb>, me: Tid, t: Tid): (r: Sched)
    requires Inv(m) && m.running && m.current == Some(me) && me in tcb && t in tcb && me != t
    requires m.tcb == Noted(tcb, me, t)
    ensures Inv(r) && !r.running && r.current == m.current
    ensures r.tcb == Recorded(tcb, me, t)
  {
    Sleep(m, t)
  }

  /** The thread pth_join is about: the one named, or the first dead one. */
  function JoinTarget(s: Sched, target: Option<Tid>): Option<Tid> {
    if target.Some? then target else if s.dq == [] then None else Some(s.dq[0].item)
  }

  /** The cases pth_join turns down at once. */
  function JoinRefusal(s: Sched, target: Option<Tid>): Code {
    var t := JoinTarget(s, target);
    if target == s.current then EDEADLK
    else if t.None? || t.value !in s.tcb then ESRCH
    else if !s.tcb[t.value].joinable then EINVAL
    else if s.count == 1 then EDEADLK
    else OK
  }

  function JoinAccepted(s: Sched, t: Tid): (o: Outcome)
    requires Inv(s) && s.running && t in s.tcb && t != Self(s)
    ensures Inv(o.s)
    ensures o.rc == BLOCKED <==> !o.s.running
    ensures o.rc != EDEADLK && o.rc != EINVAL
  {
    if s.tcb[t].state == Dead then JoinFinish(s, t) else Outcome(JoinWait(s, t), BLOCKED, 0)
  }

  /** pth_join up to its wait, or to its end when the target is already dead. */
  function Join(s: Sched, target: Option<Tid>): (o: Outcome)
    requires Inv(s) && s.running
    ensures Inv(o.s)
    ensures o.rc == BLOCKED <==> !o.s.running
    ensures JoinRefusal(s, target) != OK ==> o == Outcome(s, JoinRefusal(s, target), 0)
    ensures JoinRefusal(s, target) == OK ==> o.rc != EDEADLK && o.rc != EINVAL
  {
    if JoinRefusal(s, target) != OK then Outcome(s, JoinRefusal(s, target), 0)
    else
      JoinTargetOther(s, target);
      JoinAccepted(s, JoinTarget(s, target).value)
  }

  lemma TwoThreads(s: Sched, t: Tid, j: Tid)
    requires Inv(s) && t in s.tcb && j in s.tcb && t != j
    ensures s.count != 1
  {
    Subset({t, j}, s.tcb.Keys);
    assert |{t, j}| == 2;
  }

  /** pth_join sees a deadlock only in joining oneself: its test for a single thread never fires. */
  lemma JoinDeadlock(s: Sched, target: Option<Tid>)
    requires Inv(s) && s.running
    ensures var o := Join(s, target); (o.rc == EDEADLK <==> target == s.current) && (o.rc == EDEADLK ==> o.s == s)
  {
    var t := JoinTarget(s, target);
    RefusalIs(s, target, t);
    if target != s.current && t.Some? && t.value in s.tcb {
      JoinTargetOther(s, target);
      TwoThreads(s, t.value, Self(s));
    }
  }

  /** When pth_join turns a thread down as not joinable. */
  lemma JoinInvalid(s: Sched, target: Option<Tid>)
    requires Inv(s) && s.running
    ensures var o := Join(s, target); var t := JoinTarget(s, target);
      && (o.rc == EINVAL <==> target != s.current && t.Some? && t.value in s.tcb && !s.tcb[t.value].joinable)
      && (o.rc == EINVAL ==> o.s == s)
  {
    RefusalIs(s, target, JoinTarget(s, target));
  }

  lemma RefusalIs(s: Sched, target: Option<Tid>, t: Option<Tid>)
    requires t == JoinTarget(s, target)
    ensures JoinRefusal(s, target) == EDEADLK <==>
      target == s.current || (t.Some? && t.value in s.tcb && s.tcb[t.value].joinable && s.count == 1)
    ensures JoinRefusal(s, target) == EINVAL <==>
      target != s.current && t.Some? && t.value in s.tcb && !s.tcb[t.value].joinable
  {
  }

  /** Whom pth_join records when it waits, and whose value it hands out when it need not. */
  lemma JoinSucceeds(s: Sched, target: Option<Tid>)
    requires Inv(s) && s.running && JoinRefusal(s, target) == OK
    ensures var o := Join(s, target); var t := JoinTarget(s, target).value;
      if s.tcb[t].state == Dead then
        && (o.rc == OK <==> s.tcb[t].joinedCount <= 1)
        && (o.rc == OK ==> o.value == s.tcb[t].joinArg && o.s.tcb == s.tcb - {t})
      else o.rc == BLOCKED && o.s.tcb == Recorded(s.tcb, Self(s), t)
  {
    JoinTargetOther(s, target);
    DeadIsQueued(s, JoinTarget(s, target).value);
  }

  lemma JoinTargetOther(s: Sched, target: Option<Tid>)
    requires Inv(s) && s.running && target != s.current
    ensures JoinTarget(s, target) != s.current
  {
    if target.None? && s.dq != [] {
      assert FitsEntry(s.tcb, s.dq[0], DQ);
    }
  }

  /** The running thread is cancelled at its next cancellation point, and with it the process. */
  predicate PointEnds(s: Sched) {
    && s.current.Some? && s.current.value in s.tcb
    && s.tcb[s.current.value].cancelReq && s.tcb[s.current.value].cancelEnabled && !GoesOn(s, false)
  }

  /** The thread has a cancellation point before it when it runs again. */
  predicate Inside(c: Tcb) {
    c.joining.Some? || c.atPoint
  }

  /** A control block as it is behind the cancellation point. */
  function Outside(c: Tcb): Tcb {
    c.(joining := None, atPoint := false)
  }

  /** The caller runs again inside pth_wait: a cancellation point, then the second half of pth_join if it was that. */
  function WaitReturn(s: Sched): (o: Outcome)
    requires Inv(s) && s.running && Inside(s.tcb[Self(s)])
    ensures Inv(o.s)
    ensures o.rc == ENDED <==> PointEnds(s)
  {
    var me := s.tcb[Self(s)];
    if PointEnds(s) then Outcome(s, ENDED, 0)
    else if me.cancelReq && me.cancelEnabled then
      Outcome(ExitSelf(Marked(s, Self(s), Outside(me).(cancelReq := false)), CANCELED), ESRCH, 0)
    else if me.joining.Some? then
      JoinFinish(Marked(s, Self(s), Outside(me)), me.joining.value)
    else
      Outcome(Marked(s, Self(s), Outside(me)), OK, 0)
  }

  // ---- what the scheduler loop does ----

  /** The joiner recorded with an exiting thread, if any, still exists. */
  predicate JoinerLive(s: Sched) {
    s.current.Some? && s.current.value in s.tcb ==>
      var c := s.tcb[s.current.value];
      c.state == Exit && c.joinable && c.joinedThread.Some? ==> c.joinedThread.value in s.tcb
  }

  /** An ended thread that may be joined is kept with its value, and its waiting joiner is woken. */
  function KeptForJoin(tcb: map<Tid, Tcb>, t: Tid): map<Tid, Tcb>
    requires t in tcb
  {
    var d := tcb[t := tcb[t].(state := Dead, place := DQ)];
    var j := tcb[t].joinedThread;
    if j.Some? && j.value in d && d[j.value].waited then d[j.value := Woken(d[j.value])] else d
  }

  function Bury(s: Sched, t: Tid): (r: Sched)
    requires Inv(s) && !s.running && s.current == Some(t) && s.tcb[t].state == Exit && JoinerLive(s)
    ensures Inv(r) && !r.running && r.current == None
    ensures !s.tcb[t].joinable ==> r.tcb == s.tcb - {t}
    ensures s.tcb[t].joinable ==> r.tcb == KeptForJoin(s.tcb, t)
  {
    var c := s.tcb[t];
    if !c.joinable then Free(s, t)
    else
      var d := Move(s, t, c.(state := Dead, place := DQ), false);
      if c.joinedThread.Some? && d.tcb[c.joinedThread.value].waited then Wake(d, c.joinedThread.value) else d
  }

  /** A waiting thread is recorded as waiting, a ready one stays ready, an ended one is freed or kept. */
  function SettledTcb(tcb: map<Tid, Tcb>, t: Tid): map<Tid, Tcb>
    requires t in tcb
  {
    if tcb[t].state == Waiting then tcb[t := tcb[t].(place := WQ, waited := true)]
    else if tcb[t].state != Exit then tcb[t := tcb[t].(place := RQ)]
    else if tcb[t].joinable then KeptForJoin(tcb, t)
    else tcb - {t}
  }

  /** After a thread has switched to the scheduler: reap it, or queue it where its state says. */
  function Settle(s: Sched): (r: Sched)
    requires Inv(s) && !s.running && s.current.Some? && JoinerLive(s)
    ensures Inv(r) && !r.running && r.current == None
    ensures r.tcb == SettledTcb(s.tcb, s.current.value)
  {
    var t := s.current.value;
    var c := s.tcb[t];
    if c.state == Exit then Bury(s, t)
    else if c.state == Waiting then Move(s, t, c.(place := WQ, waited := true), false)
    else Move(s, t, c.(place := RQ), false)
  }

  lemma PromoteKeeps(s: Sched, r: Sched, t: Tid, c: Tcb)
    requires Inv(s) && t in s.tcb && s.tcb[t].place == NQ
    requires c == s.tcb[t].(state := Ready, place := RQ)
    requires r == s.(nq := Delete(s.nq, t), rq := PrependSecond(s.rq, c.eprio, t), tcb := s.tcb[t := c])
    ensures Inv(r)
  {
    OutOfOthers(s, t);
    UpdateKeeps(s, r, t, c);
  }

  function PromoteOne(s: Sched): (r: Sched)
    requires Inv(s) && s.nq != []
    ensures Inv(r) && |r.nq| == |s.nq| - 1 && r.running == s.running && r.current == s.current
    ensures var t := s.nq[0].item;
      t in s.tcb && s.tcb[t].place == NQ && r.tcb == s.tcb[t := s.tcb[t].(state := Ready, place := RQ)]
  {
    var t := s.nq[0].item;
    assert FitsEntry(s.tcb, s.nq[0], NQ);
    var c := s.tcb[t].(state := Ready, place := RQ);
    var r := s.(nq := Delete(s.nq, t), rq := PrependSecond(s.rq, c.eprio, t), tcb := s.tcb[t := c]);
    PromoteKeeps(s, r, t, c);
    r
  }

  /** All new threads become ready. */
  function Promote(s: Sched): (r: Sched)
    requires Inv(s)
    ensures Inv(r) && r.nq == [] && r.running == s.running && r.current == s.current
    decreases |s.nq|
  {
    if s.nq == [] then s else Promote(PromoteOne(s))
  }

  /** Exactly the new threads become ready; nobody else changes. */
  lemma {:induction false} PromotesNew(s: Sched, t: Tid)
    requires Inv(s)
    ensures t in Promote(s).tcb <==> t in s.tcb
    ensures t in s.tcb ==> Promote(s).tcb[t] ==
                           if s.tcb[t].place == NQ then s.tcb[t].(state := Ready, place := RQ) else s.tcb[t]
    decreases |s.nq|
  {
    if s.nq != [] {
      PromotesNew(PromoteOne(s), t);
    } else {
      BackedItems(s.tcb, s.nq, NQ);
    }
  }

  lemma PromotesNobodyElse(s: Sched)
    requires Inv(s)
    ensures Promote(s).tcb.Keys == s.tcb.Keys
  {
    forall u ensures u in Promote(s).tcb <==> u in s.tcb {
      PromotesNew(s, u);
    }
  }

  function Head(s: Sched): (t: Tid)
    requires Queued(s) && s.rq != []
    ensures t in s.tcb && s.tcb[t].place == RQ
  {
    assert FitsEntry(s.tcb, s.rq[0], RQ);
    s.rq[0].item
  }

  /** The first ready thread gets control. */
  function Dispatch(s: Sched): (r: Sched)
    requires Inv(s) && !s.running && s.current.None? && s.rq != []
    ensures Inv(r) && r.running && r.current == Some(Head(s))
    ensures r.tcb == s.tcb[Head(s) := s.tcb[Head(s)].(place := Nowhere)]
  {
    Move(s, Head(s), s.tcb[Head(s)].(place := Nowhere), true)
  }

  /** The thread that gets control has the highest effective priority of all that are ready. */
  lemma DispatchesBest(s: Sched, t: Tid)
    requires Inv(s) && !s.running && s.current.None? && s.rq != []
    requires t in s.tcb && s.tcb[t].place == RQ
    ensures var d := Dispatch(s).current; d.Some? && d.value in s.tcb && s.tcb[t].eprio <= s.tcb[d.value].eprio
  {
    var i :| 0 <= i < |s.rq| && s.rq[i].item == t;
    assert FitsEntry(s.tcb, s.rq[i], RQ) && FitsEntry(s.tcb, s.rq[0], RQ);
  }

  /** The event manager visits waiting threads in queue order and wakes those whose events occurred. */
  function Events(s: Sched, todo: seq<Entry<Tid>>, occurred: set<Tid>): (r: Sched)
    requires Inv(s)
    ensures Inv(r) && r.running == s.running && r.current == s.current
    decreases todo
  {
    if todo == [] then s else Events(EventOne(s, todo[0].item, occurred), todo[1..], occurred)
  }

  function EventOne(s: Sched, t: Tid, occurred: set<Tid>): (r: Sched)
    requires Inv(s)
    ensures Inv(r) && r.running == s.running && r.current == s.current
    ensures r.tcb == if t in occurred && t in s.tcb && s.tcb[t].place == WQ then s.tcb[t := Woken(s.tcb[t])] else s.tcb
  {
    if t in occurred && t in s.tcb && s.tcb[t].place == WQ then Wake(s, t) else s
  }

  lemma HoldsTail(q: Queue, t: Tid)
    requires q != []
    ensures Holds(q, t) <==> q[0].item == t || Holds(q[1..], t)
  {
    if i :| 0 < i < |q| && q[i].item == t {
      assert q[1..][i - 1].item == t;
    }
    if i :| 0 <= i < |q[1..]| && q[1..][i].item == t {
      assert q[i + 1].item == t;
    }
  }

  function AfterEvent(c: Tcb, fires: bool): Tcb {
    if fires && c.place == WQ then Woken(c) else c
  }

  lemma EventOneAt(s: Sched, u: Tid, occurred: set<Tid>, t: Tid)
    requires Inv(s)
    ensures t in EventOne(s, u, occurred).tcb <==> t in s.tcb
    ensures t in s.tcb ==> EventOne(s, u, occurred).tcb[t] == AfterEvent(s.tcb[t], u == t && t in occurred)
  {
  }

  /** Exactly the waiting threads with an occurred event become ready; nobody else changes. */
  lemma {:induction false} EventsWake(s: Sched, todo: Queue, occurred: set<Tid>, t: Tid)
    requires Inv(s)
    ensures t in Events(s, todo, occurred).tcb <==> t in s.tcb
    ensures t in s.tcb ==> Events(s, todo, occurred).tcb[t] == AfterEvent(s.tcb[t], t in occurred && Holds(todo, t))
    decreases todo
  {
    if todo != [] {
      HoldsTail(todo, t);
      EventOneAt(s, todo[0].item, occurred, t);
      EventsWake(EventOne(s, todo[0].item, occurred), todo[1..], occurred, t);
    }
  }
}
