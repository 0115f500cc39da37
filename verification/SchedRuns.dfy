/**
 Whole runs of the M:1 scheduler: any sequence of thread calls and scheduler
 steps keeps every thread in one place.
 */
module SchedRuns {
  import opened Basics
  import opened SchedQueue
  import opened Sched
  import opened SchedOps

  datatype Op =
    | DoSpawn(t: Tid, c: Tcb, suspended: bool)
    | DoWait(point: bool)
    | DoExit(value: int, wait: bool)
    | DoYield(to: Option<Tid>)
    | DoSuspend(target: Option<Tid>)
    | DoResume(target: Option<Tid>)
    | DoCancel(target: Option<Tid>)
    | DoJoin(target: Option<Tid>)
    | DoReturn
    | DoSettle
    | DoPromote
    | DoDispatch
    | DoEvents(occurred: set<Tid>)

  predicate InCall(s: Sched) {
    s.current.Some? && s.current.value in s.tcb && Inside(s.tcb[s.current.value])
  }

  predicate Names(s: Sched, t: Option<Tid>) {
    t.Some? ==> t.value in s.tcb
  }

  /** The call ends the process: it is the last of its run, and no state comes after it. */
  predicate Ends(s: Sched, op: Op) {
    match op
    case DoExit(_, wait) => !GoesOn(s, wait)
    case DoCancel(t) => CancelEnds(s, t)
    case DoReturn => PointEnds(s)
    case _ => false
  }

  /** The event manager wakes every waiting thread that has a cancellation request. */
  predicate Heard(s: Sched, occurred: set<Tid>) {
    forall t | t in s.tcb && s.tcb[t].place == WQ && s.tcb[t].cancelReq :: t in occurred
  }

  /** Who may do what when: calls need control, scheduler steps need its absence. */
  predicate Attempted(s: Sched, op: Op) {
    match op
    case DoSettle => !s.running && s.current.Some?
    case DoPromote => !s.running && s.current.None?
    case DoDispatch => !s.running && s.current.None? && s.nq == [] && s.rq != []
    case DoEvents(occurred) => !s.running && s.current.None? && Heard(s, occurred)
    case DoReturn => s.running && InCall(s) && !Ends(s, op)
    case _ => s.running && !InCall(s) && Callable(s, op) && !Ends(s, op)
  }

  /** The scheduler is about to read the control block of a recorded joiner that no longer exists. */
  predicate Lost(s: Sched) {
    Attempted(s, DoSettle) && !JoinerLive(s)
  }

  /** An attempted step that has a defined outcome. */
  predicate Enabled(s: Sched, op: Op) {
    Attempted(s, op) && (op.DoSettle? ==> JoinerLive(s))
  }

  predicate Callable(s: Sched, op: Op) {
    match op
    case DoSpawn(t, _, _) => t !in s.tcb
    case DoYield(to) => Names(s, to)
    case DoSuspend(t) => Names(s, t)
    case DoResume(t) => Names(s, t)
    case _ => true
  }

  function ApplyStep(s: Sched, op: Op): (r: Sched)
    requires Inv(s) && Enabled(s, op) && !s.running
    ensures Inv(r)
  {
    match op
    case DoSettle => Settle(s)
    case DoPromote => Promote(s)
    case DoDispatch => Dispatch(s)
    case DoEvents(occurred) => Events(s, s.wq, occurred)
    case _ => s
  }

  function ApplyCall(s: Sched, op: Op): (r: Sched)
    requires Inv(s) && Enabled(s, op) && s.running
    ensures Inv(r)
  {
    match op
    case DoSpawn(t, c, suspended) => Spawn(s, t, c, suspended)
    case DoWait(point) => Block(s, point)
    case DoExit(v, wait) => Leave(s, v, wait).s
    case DoYield(to) => Yield(s, to)
    case DoSuspend(t) => Suspend(s, t).s
    case DoResume(t) => Resume(s, t).s
    case DoCancel(t) => Cancel(s, t).s
    case DoJoin(t) => Join(s, t).s
    case DoReturn => WaitReturn(s).s
    case _ => s
  }

  function Apply(s: Sched, op: Op): (r: Sched)
    requires Inv(s) && Enabled(s, op)
    ensures Inv(r)
  {
    if s.running then ApplyCall(s, op) else ApplyStep(s, op)
  }

  ghost predicate Possible(s: Sched, ops: seq<Op>)
    requires Inv(s)
    decreases |ops|
  {
    ops == [] || (Enabled(s, ops[0]) && Possible(Apply(s, ops[0]), ops[1..]))
  }

  ghost function Run(s: Sched, ops: seq<Op>): (r: Sched)
    requires Inv(s) && Possible(s, ops)
    ensures Inv(r)
    decreases |ops|
  {
    if ops == [] then s else Run(Apply(s, ops[0]), ops[1..])
  }

  // ---- what any sequence of attempted steps comes to ----

  /** Every step is attempted in the state it finds; where one has no defined outcome the run ends. */
  ghost predicate Tried(s: Sched, ops: seq<Op>)
    requires Inv(s)
    decreases |ops|
  {
    ops == [] || (Attempted(s, ops[0]) && (Enabled(s, ops[0]) ==> Tried(Apply(s, ops[0]), ops[1..])))
  }

  /** How many of the steps have a defined outcome. */
  ghost function Defined(s: Sched, ops: seq<Op>): (k: nat)
    requires Inv(s) && Tried(s, ops)
    ensures k <= |ops| && Possible(s, ops[..k])
    ensures k < |ops| ==> Lost(Run(s, ops[..k]))
    decreases |ops|
  {
    if ops == [] || !Enabled(s, ops[0]) then
      assert ops[..0] == [];
      0
    else
      var k := Defined(Apply(s, ops[0]), ops[1..]);
      FirstThenRest(ops, k);
      OneMore(s, ops[0], ops[1..][..k], ops[..k + 1]);
      k + 1
  }

  lemma OneMore(s: Sched, op: Op, ops: seq<Op>, all: seq<Op>)
    requires Inv(s) && Enabled(s, op) && all == [op] + ops && Possible(Apply(s, op), ops)
    ensures Possible(s, all) && Run(s, all) == Run(Apply(s, op), ops)
  {
    assert all[0] == op && all[1..] == ops;
  }

  /** Each thread is in exactly one place that its state fits, a waited-for thread waits, and nobody is miscounted. */
  ghost predicate Partitioned(s: Sched, t: Tid) {
    && Held(s.nq, t) + Held(s.rq, t) + Held(s.wq, t) + Held(s.sq, t) + Held(s.dq, t)
       + (if s.current == Some(t) then 1 else 0) == (if t in s.tcb then 1 else 0)
    && (t in s.tcb ==> StateFits(s.tcb[t], s.running) && (s.tcb[t].waited ==> t in Items(s.wq)))
    && s.count == |s.tcb|
  }

  /**
   After any attempted steps from the start the threads are partitioned, up to
   and including the state, if one comes, in which a recorded joiner is gone.
   */
  lemma RunsKeepPartition(main: Tcb, ops: seq<Op>, t: Tid)
    requires main.state == Ready && !main.waited && main.place == Nowhere && Tried(Init(main), ops)
    ensures var k := Defined(Init(main), ops);
      Partitioned(Run(Init(main), ops[..k]), t) && (k < |ops| ==> Lost(Run(Init(main), ops[..k])))
  {
    OnePlace(Run(Init(main), ops[..Defined(Init(main), ops)]), t);
  }

  // ---- the value a thread ends with ----

  /** A thread that has ended keeps its state and value until it is freed. */
  predicate KeepsDead(a: map<Tid, Tcb>, b: map<Tid, Tcb>, t: Tid) {
    t in a && a[t].state == Dead && t in b ==> b[t].state == Dead && b[t].joinArg == a[t].joinArg
  }

  /** Writing another thread's control block, or freeing one, does not touch an ended thread. */
  lemma OtherKeepsDead(tcb: map<Tid, Tcb>, u: Tid, c: Tcb, d: Tcb, t: Tid)
    requires t in tcb && (u == t ==> tcb[t].state != Dead)
    ensures KeepsDead(tcb, tcb[u := c], t) && KeepsDead(tcb, tcb[u := c][u := d], t)
    ensures KeepsDead(tcb, tcb[u := c] - {u}, t)
  {
  }

  lemma OwnKeepsDead(s: Sched, c: Tcb, t: Tid)
    requires Inv(s) && s.running && t in s.tcb
    ensures KeepsDead(s.tcb, s.tcb[Self(s) := c], t)
  {
    DeadIsQueued(s, t);
    OtherKeepsDead(s.tcb, Self(s), c, c, t);
  }

  lemma SuspendKeepsDead(s: Sched, u: Option<Tid>, t: Tid)
    requires Inv(s) && s.running && t in s.tcb && Names(s, u)
    ensures KeepsDead(s.tcb, Suspend(s, u).s.tcb, t)
  {
    if Suspend(s, u).rc == OK {
      var c := s.tcb[u.value].(place := SQ, waited := false);
      OtherKeepsDead(s.tcb, u.value, c, c, t);
    }
  }

  lemma ResumeKeepsDead(s: Sched, u: Option<Tid>, t: Tid)
    requires Inv(s) && s.running && t in s.tcb && Names(s, u)
    ensures KeepsDead(s.tcb, Resume(s, u).s.tcb, t)
  {
    DeadIsQueued(s, t);
    if Resume(s, u).rc == OK {
      var c := s.tcb[u.value].(place := Home(s.tcb[u.value].state));
      OtherKeepsDead(s.tcb, u.value, c, c, t);
    }
  }

  lemma CancelKeepsDead(s: Sched, u: Option<Tid>, t: Tid)
    requires Inv(s) && s.running && t in s.tcb
    ensures KeepsDead(s.tcb, Cancel(s, u).s.tcb, t)
  {
    if CancelEnds(s, u) {
      assert Cancel(s, u).s == s;
    } else if u.Some? && u.value in s.tcb && s.tcb[u.value].state != Dead && !s.tcb[u.value].cancelReq {
      var c := s.tcb[u.value].(cancelReq := true);
      if c.cancelEnabled && c.cancelAsync && u == s.current {
        OtherKeepsDead(s.tcb, u.value, c.(cancelReq := false, state := Exit, joinArg := CANCELED), c, t);
        assert Cancel(s, u).s == CancelSelf(s);
      } else {
        OtherKeepsDead(s.tcb, u.value, c, c.(joinArg := CANCELED, state := Dead, place := DQ), t);
      }
    } else {
      assert Cancel(s, u).s == s;
    }
  }

  lemma JoinFinishKeepsDead(s: Sched, u: Tid, t: Tid)
    requires Inv(s) && s.running && t in s.tcb
    ensures KeepsDead(s.tcb, JoinFinish(s, u).s.tcb, t)
  {
    if u in s.tcb && s.tcb[u].place == DQ {
      CountedKeepsDead(s.tcb, u, s.tcb[u].(joinedCount := s.tcb[u].joinedCount - 1), t);
    }
  }

  lemma CountedKeepsDead(tcb: map<Tid, Tcb>, u: Tid, c: Tcb, t: Tid)
    requires u in tcb && c.state == tcb[u].state && c.joinArg == tcb[u].joinArg
    ensures KeepsDead(tcb, tcb[u := c], t) && KeepsDead(tcb, tcb - {u}, t)
  {
  }

  lemma RecordedKeepsDead(tcb: map<Tid, Tcb>, me: Tid, u: Tid, t: Tid)
    requires me in tcb && u in tcb && tcb[me].state != Dead && tcb[u].state != Dead
    ensures KeepsDead(tcb, Recorded(tcb, me, u), t)
  {
  }

  lemma JoinWaitKeepsDead(s: Sched, u: Tid, t: Tid)
    requires Inv(s) && s.running && t in s.tcb && u in s.tcb && u != Self(s) && s.tcb[u].state != Dead
    ensures KeepsDead(s.tcb, JoinWait(s, u).tcb, t)
  {
    DeadIsQueued(s, Self(s));
    RecordedKeepsDead(s.tcb, Self(s), u, t);
  }

  lemma JoinKeepsDead(s: Sched, target: Option<Tid>, t: Tid)
    requires Inv(s) && s.running && t in s.tcb
    ensures KeepsDead(s.tcb, Join(s, target).s.tcb, t)
  {
    if JoinRefusal(s, target) == OK {
      JoinTargetOther(s, target);
      var u := JoinTarget(s, target).value;
      if s.tcb[u].state == Dead {
        JoinFinishKeepsDead(s, u, t);
      } else {
        JoinWaitKeepsDead(s, u, t);
      }
    }
  }

  lemma ReturnKeepsDead(s: Sched, t: Tid)
    requires Inv(s) && s.running && t in s.tcb && Inside(s.tcb[Self(s)])
    ensures KeepsDead(s.tcb, WaitReturn(s).s.tcb, t)
  {
    var me := s.tcb[Self(s)];
    DeadIsQueued(s, t);
    if !(me.cancelReq && me.cancelEnabled) && me.joining.Some? {
      JoinFinishKeepsDead(Marked(s, Self(s), Outside(me)), me.joining.value, t);
    }
  }

  /** Calls that concern threads other than by joining or cancelling. */
  predicate Plain(op: Op) {
    op.DoSpawn? || op.DoWait? || op.DoExit? || op.DoYield? || op.DoSuspend? || op.DoResume?
  }

  lemma PlainKeepsDead(s: Sched, op: Op, t: Tid)
    requires Inv(s) && Enabled(s, op) && s.running && t in s.tcb && Plain(op)
    ensures KeepsDead(s.tcb, ApplyCall(s, op).tcb, t)
  {
    match op
    case DoSpawn(u, c, suspended) => OtherKeepsDead(s.tcb, u, Fresh(c, suspended), c, t);
    case DoWait(point) => OwnKeepsDead(s, s.tcb[Self(s)].(state := Waiting, atPoint := point), t);
    case DoExit(v, _) => OwnKeepsDead(s, s.tcb[Self(s)].(state := Exit, joinArg := v), t);
    case DoSuspend(u) => SuspendKeepsDead(s, u, t);
    case DoResume(u) => ResumeKeepsDead(s, u, t);
    case DoYield(_) =>
  }

  lemma CallKeepsDead(s: Sched, op: Op, t: Tid)
    requires Inv(s) && Enabled(s, op) && s.running && t in s.tcb
    ensures KeepsDead(s.tcb, ApplyCall(s, op).tcb, t)
  {
    match op
    case DoCancel(u) => CancelKeepsDead(s, u, t);
    case DoJoin(u) => JoinKeepsDead(s, u, t);
    case DoReturn => ReturnKeepsDead(s, t);
    case _ => PlainKeepsDead(s, op, t);
  }

  lemma SettleKeepsDead(s: Sched, t: Tid)
    requires Inv(s) && Enabled(s, DoSettle) && t in s.tcb
    ensures KeepsDead(s.tcb, Settle(s).tcb, t)
  {
    DeadIsQueued(s, t);
    SettledKeepsDead(s.tcb, s.current.value, t);
  }

  lemma SettledKeepsDead(tcb: map<Tid, Tcb>, u: Tid, t: Tid)
    requires u in tcb && tcb[u].state != Dead && t in tcb && (tcb[t].state == Dead ==> !tcb[t].waited)
    ensures KeepsDead(tcb, SettledTcb(tcb, u), t)
  {
  }

  lemma StepKeepsDead(s: Sched, op: Op, t: Tid)
    requires Inv(s) && Enabled(s, op) && !s.running && t in s.tcb
    ensures KeepsDead(s.tcb, ApplyStep(s, op).tcb, t)
  {
    match op
    case DoSettle => SettleKeepsDead(s, t);
    case DoPromote => DeadIsQueued(s, t); PromotesNew(s, t);
    case DoEvents(occurred) => DeadIsQueued(s, t); EventsWake(s, s.wq, occurred, t);
    case DoDispatch =>
      DeadIsQueued(s, t);
      OtherKeepsDead(s.tcb, Head(s), s.tcb[Head(s)].(place := Nowhere), s.tcb[Head(s)], t);
  }

  /** The thread exists in every state of the run. */
  ghost predicate NeverFreed(s: Sched, ops: seq<Op>, t: Tid)
    requires Inv(s) && Possible(s, ops)
    decreases |ops|
  {
    t in s.tcb && (ops == [] || NeverFreed(Apply(s, ops[0]), ops[1..], t))
  }

  /** Whatever runs meanwhile, the last joiner of an ended thread gets the value it ended with, and frees it. */
  lemma {:induction false} JoinDeliversValue(s: Sched, ops: seq<Op>, t: Tid)
    requires Inv(s) && Possible(s, ops) && NeverFreed(s, ops, t) && s.tcb[t].state == Dead
    ensures var r := Run(s, ops);
      t in r.tcb && r.tcb[t].joinArg == s.tcb[t].joinArg &&
      (r.running && r.tcb[t].joinedCount <= 1 ==>
         var o := JoinFinish(r, t); o.rc == OK && o.value == s.tcb[t].joinArg && t !in o.s.tcb)
    decreases |ops|
  {
    if ops == [] {
      DeadIsQueued(s, t);
    } else {
      if s.running {
        CallKeepsDead(s, ops[0], t);
      } else {
        StepKeepsDead(s, ops[0], t);
      }
      JoinDeliversValue(Apply(s, ops[0]), ops[1..], t);
    }
  }

  /** From exit to join: a thread that may be joined ends with a value, and that is what its last joiner gets. */
  lemma ExitValueIsDelivered(s: Sched, value: int, wait: bool, ops: seq<Op>)
    requires Inv(s) && s.running && s.tcb[Self(s)].joinable
    requires GoesOn(s, wait) && JoinerLive(Leave(s, value, wait).s)
    requires var d := Settle(Leave(s, value, wait).s); Possible(d, ops) && NeverFreed(d, ops, Self(s))
    ensures var r := Run(Settle(Leave(s, value, wait).s), ops);
      Self(s) in r.tcb &&
      (r.running && r.tcb[Self(s)].joinedCount <= 1 ==>
         var o := JoinFinish(r, Self(s)); o.rc == OK && o.value == value && Self(s) !in o.s.tcb)
  {
    KeptValue(s.tcb[Self(s) := s.tcb[Self(s)].(state := Exit, joinArg := value)], Self(s));
    JoinDeliversValue(Settle(Leave(s, value, wait).s), ops, Self(s));
  }

  lemma KeptValue(tcb: map<Tid, Tcb>, t: Tid)
    requires t in tcb && tcb[t].state == Exit && tcb[t].joinable
    ensures var r := SettledTcb(tcb, t); t in r && (tcb[t].waited || Holding(r, t, tcb[t].joinArg))
  {
  }

  /** The thread has ended and its value is still there. */
  predicate Holding(tcb: map<Tid, Tcb>, t: Tid, value: int) {
    t in tcb && tcb[t].state == Dead && tcb[t].joinArg == value
  }
}
