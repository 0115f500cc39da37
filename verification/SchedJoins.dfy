/**
 pth_join leaves its caller's address with the target for a direct wake-up at
 the target's end. This module shows over which runs that address is good.
 */
module SchedJoins {
  import opened Basics
  import opened SchedQueue
  import opened Sched
  import opened SchedOps
  import opened SchedRuns

  ghost predicate Awaits(tcb: map<Tid, Tcb>, j: Tid, t: Tid) {
    j in tcb && tcb[j].joining == Some(t) && tcb[j].state == Waiting
  }

  ghost predicate RecordOk(tcb: map<Tid, Tcb>, t: Tid)
    requires t in tcb
  {
    tcb[t].state != Dead && tcb[t].joinedThread.Some? ==>
      tcb[t].joinable && tcb[t].joinedThread != Some(t) && Awaits(tcb, tcb[t].joinedThread.value, t)
  }

  /** Whoever is recorded with a thread that has not ended is another thread and sits in pth_join for it. */
  ghost predicate JoinOk(tcb: map<Tid, Tcb>) {
    forall t | t in tcb :: RecordOk(tcb, t)
  }

  lemma JoinOkMakesJoinerLive(s: Sched)
    requires JoinOk(s.tcb)
    ensures JoinerLive(s)
  {
    if s.current.Some? && s.current.value in s.tcb {
      assert RecordOk(s.tcb, s.current.value);
    }
  }

  /** A thread changes in a way that neither breaks a promise made for it nor makes one it does not keep. */
  ghost predicate KeepsWord(tcb: map<Tid, Tcb>, t: Tid, c: Tcb)
    requires t in tcb
  {
    && (|| c.state == Dead
        || (tcb[t].state != Dead && c.joinedThread == tcb[t].joinedThread && c.joinable == tcb[t].joinable))
    && (|| tcb[t].state != Waiting
        || (c.state == Waiting && c.joining == tcb[t].joining)
        || tcb[t].joining.None?
        || tcb[t].joining.value !in tcb
        || tcb[tcb[t].joining.value].state == Dead)
  }

  lemma UpdateKeepsJoinOk(tcb: map<Tid, Tcb>, t: Tid, c: Tcb)
    requires JoinOk(tcb) && t in tcb && KeepsWord(tcb, t, c)
    ensures JoinOk(tcb[t := c])
  {
    var r := tcb[t := c];
    forall u | u in r ensures RecordOk(r, u) {
      assert RecordOk(tcb, u);
    }
  }

  lemma FreeKeepsJoinOk(tcb: map<Tid, Tcb>, t: Tid)
    requires JoinOk(tcb) && t in tcb && tcb[t].state != Waiting
    ensures JoinOk(tcb - {t})
  {
    var r := tcb - {t};
    forall u | u in r ensures RecordOk(r, u) {
      assert RecordOk(tcb, u);
    }
  }

  lemma RecordedKeeps(tcb: map<Tid, Tcb>, me: Tid, t: Tid)
    requires JoinOk(tcb) && me in tcb && t in tcb && me != t && tcb[me].state == Ready && tcb[t].joinable
    ensures JoinOk(Recorded(tcb, me, t))
  {
    var r := Recorded(tcb, me, t);
    forall u | u in r ensures RecordOk(r, u) {
      assert RecordOk(tcb, u);
    }
  }

  lemma CancelKeeps(s: Sched, t: Option<Tid>)
    requires Inv(s) && s.running && JoinOk(s.tcb)
    ensures JoinOk(Cancel(s, t).s.tcb)
  {
    if t.Some? && t.value in s.tcb && s.tcb[t.value].state != Dead && !s.tcb[t.value].cancelReq {
      var c := s.tcb[t.value].(cancelReq := true);
      assert StateFits(s.tcb[t.value], true);
      if !(c.cancelEnabled && c.cancelAsync && t == s.current) {
        UpdateKeepsJoinOk(s.tcb, t.value, c);
      }
      if c.cancelEnabled && c.cancelAsync {
        if t == s.current {
          UpdateKeepsJoinOk(s.tcb, t.value, c.(cancelReq := false, state := Exit, joinArg := CANCELED));
        } else if c.place == NQ {
          var m := s.tcb[t.value := c];
          if c.joinable {
            UpdateKeepsJoinOk(m, t.value, c.(joinArg := CANCELED, state := Dead, place := DQ));
          } else {
            FreeKeepsJoinOk(m, t.value);
          }
        }
      }
    }
  }

  lemma JoinAcceptedKeeps(s: Sched, t: Tid)
    requires Inv(s) && s.running && t in s.tcb && t != Self(s) && JoinOk(s.tcb) && s.tcb[t].joinable
    ensures JoinOk(JoinAccepted(s, t).s.tcb)
  {
    if s.tcb[t].state == Dead {
      JoinFinishKeeps(s, t);
    } else {
      assert StateFits(s.tcb[Self(s)], true);
      RecordedKeeps(s.tcb, Self(s), t);
    }
  }

  lemma JoinKeeps(s: Sched, target: Option<Tid>)
    requires Inv(s) && s.running && JoinOk(s.tcb)
    ensures JoinOk(Join(s, target).s.tcb)
  {
    if JoinRefusal(s, target) == OK {
      JoinTargetOther(s, target);
      JoinAcceptedKeeps(s, JoinTarget(s, target).value);
    }
  }

  lemma JoinFinishKeeps(s: Sched, t: Tid)
    requires Inv(s) && s.running && JoinOk(s.tcb)
    ensures JoinOk(JoinFinish(s, t).s.tcb)
  {
    if t in s.tcb && s.tcb[t].place == DQ {
      assert StateFits(s.tcb[t], true);
      UpdateKeepsJoinOk(s.tcb, t, s.tcb[t].(joinedCount := s.tcb[t].joinedCount - 1));
      FreeKeepsJoinOk(s.tcb, t);
    }
  }

  lemma ReturnKeeps(s: Sched)
    requires Inv(s) && s.running && Inside(s.tcb[Self(s)]) && JoinOk(s.tcb)
    ensures JoinOk(WaitReturn(s).s.tcb)
  {
    var t := Self(s);
    var me := s.tcb[t];
    assert StateFits(me, true);
    var c := Outside(me).(cancelReq := false);
    UpdateKeepsJoinOk(s.tcb, t, c);
    if me.cancelReq && me.cancelEnabled {
      UpdateKeepsJoinOk(s.tcb[t := c], t, c.(state := Exit, joinArg := CANCELED));
    } else {
      var d := Outside(me);
      UpdateKeepsJoinOk(s.tcb, t, d);
      if me.joining.Some? {
        JoinFinishKeeps(Marked(s, t, d), me.joining.value);
      }
    }
  }

  lemma SpawnKeepsJoinOk(tcb: map<Tid, Tcb>, t: Tid, c: Tcb)
    requires JoinOk(tcb) && t !in tcb && c.joinedThread == None
    ensures JoinOk(tcb[t := c])
  {
    var r := tcb[t := c];
    forall u | u in r ensures RecordOk(r, u) {
      assert u != t ==> RecordOk(tcb, u);
    }
  }

  lemma SuspendKeepsJoinOk(s: Sched, t: Option<Tid>)
    requires Inv(s) && s.running && Names(s, t) && JoinOk(s.tcb)
    ensures JoinOk(Suspend(s, t).s.tcb)
  {
    if Suspend(s, t).rc == OK {
      UpdateKeepsJoinOk(s.tcb, t.value, s.tcb[t.value].(place := SQ, waited := false));
    }
  }

  lemma ResumeKeepsJoinOk(s: Sched, t: Option<Tid>)
    requires Inv(s) && s.running && Names(s, t) && JoinOk(s.tcb)
    ensures JoinOk(Resume(s, t).s.tcb)
  {
    if Resume(s, t).rc == OK {
      UpdateKeepsJoinOk(s.tcb, t.value, s.tcb[t.value].(place := Home(s.tcb[t.value].state)));
    }
  }

  lemma OwnKeepsJoinOk(s: Sched, c: Tcb)
    requires Inv(s) && s.running && JoinOk(s.tcb) && c.joinedThread == s.tcb[Self(s)].joinedThread
    requires c.joinable == s.tcb[Self(s)].joinable
    ensures JoinOk(s.tcb[Self(s) := c])
  {
    assert StateFits(s.tcb[Self(s)], true);
    UpdateKeepsJoinOk(s.tcb, Self(s), c);
  }

  lemma PlainKeepsJoinOk(s: Sched, op: Op)
    requires Inv(s) && Enabled(s, op) && s.running && JoinOk(s.tcb) && Plain(op)
    ensures JoinOk(ApplyCall(s, op).tcb)
  {
    match op
    case DoSpawn(t, c, suspended) => SpawnKeepsJoinOk(s.tcb, t, Fresh(c, suspended));
    case DoWait(point) => OwnKeepsJoinOk(s, s.tcb[Self(s)].(state := Waiting, atPoint := point));
    case DoExit(v, _) => OwnKeepsJoinOk(s, s.tcb[Self(s)].(state := Exit, joinArg := v));
    case DoSuspend(t) => SuspendKeepsJoinOk(s, t);
    case DoResume(t) => ResumeKeepsJoinOk(s, t);
    case DoYield(_) =>
  }

  lemma CallKeepsJoinOk(s: Sched, op: Op)
    requires Inv(s) && Enabled(s, op) && s.running && JoinOk(s.tcb)
    ensures JoinOk(ApplyCall(s, op).tcb)
  {
    match op
    case DoCancel(t) => CancelKeeps(s, t);
    case DoJoin(t) => JoinKeeps(s, t);
    case DoReturn => ReturnKeeps(s);
    case _ => PlainKeepsJoinOk(s, op);
  }

  lemma BuryKeepsJoinOk(s: Sched, t: Tid)
    requires Inv(s) && !s.running && s.current == Some(t) && s.tcb[t].state == Exit && JoinerLive(s)
    requires JoinOk(s.tcb)
    ensures JoinOk(Bury(s, t).tcb)
  {
    var c := s.tcb[t];
    if !c.joinable {
      FreeKeepsJoinOk(s.tcb, t);
    } else {
      assert RecordOk(s.tcb, t);
      var m := s.tcb[t := c.(state := Dead, place := DQ)];
      UpdateKeepsJoinOk(s.tcb, t, m[t]);
      if c.joinedThread.Some? && m[c.joinedThread.value].waited {
        UpdateKeepsJoinOk(m, c.joinedThread.value, Woken(m[c.joinedThread.value]));
      }
    }
  }

  lemma SettleKeepsJoinOk(s: Sched)
    requires Inv(s) && !s.running && s.current.Some? && JoinerLive(s) && JoinOk(s.tcb)
    ensures JoinOk(Settle(s).tcb)
  {
    var t := s.current.value;
    var c := s.tcb[t];
    if c.state == Exit {
      BuryKeepsJoinOk(s, t);
    } else {
      UpdateKeepsJoinOk(s.tcb, t, if c.state == Waiting then c.(place := WQ, waited := true) else c.(place := RQ));
    }
  }

  lemma {:induction false} PromoteKeepsJoinOk(s: Sched)
    requires Inv(s) && JoinOk(s.tcb)
    ensures JoinOk(Promote(s).tcb)
    decreases |s.nq|
  {
    if s.nq != [] {
      var t := s.nq[0].item;
      assert FitsEntry(s.tcb, s.nq[0], NQ) && StateFits(s.tcb[t], s.running);
      UpdateKeepsJoinOk(s.tcb, t, s.tcb[t].(state := Ready, place := RQ));
      PromoteKeepsJoinOk(PromoteOne(s));
    }
  }

  /** No thread that has not ended loses the waiter recorded with it to this round of events. */
  ghost predicate RecordedStay(tcb: map<Tid, Tcb>, occurred: set<Tid>) {
    forall t | t in tcb && tcb[t].state != Dead && tcb[t].joinedThread.Some? ::
      var j := tcb[t].joinedThread.value;
      !(j in occurred && j in tcb && tcb[j].place == WQ)
  }

  /** The records stay good through the event manager exactly when no recorded joiner is woken early. */
  lemma EventsJoinOkIff(s: Sched, occurred: set<Tid>)
    requires Inv(s) && JoinOk(s.tcb)
    ensures JoinOk(Events(s, s.wq, occurred).tcb) <==> RecordedStay(s.tcb, occurred)
  {
    EventsTcb(s, occurred);
    forall u | u in s.tcb ensures s.tcb[u].place == WQ ==> s.tcb[u].state == Waiting {
      assert StateFits(s.tcb[u], s.running);
    }
    AfterEventsJoinOkIff(s.tcb, Events(s, s.wq, occurred).tcb, occurred);
  }

  lemma EventsTcb(s: Sched, occurred: set<Tid>)
    requires Inv(s)
    ensures var r := Events(s, s.wq, occurred).tcb;
      r.Keys == s.tcb.Keys && forall u | u in s.tcb :: r[u] == AfterEvent(s.tcb[u], u in occurred)
  {
    BackedItems(s.tcb, s.wq, WQ);
    forall u ensures u in Events(s, s.wq, occurred).tcb <==> u in s.tcb
      ensures u in s.tcb ==> Events(s, s.wq, occurred).tcb[u] == AfterEvent(s.tcb[u], u in occurred)
    {
      EventsWake(s, s.wq, occurred, u);
    }
  }

  lemma AfterEventsJoinOkIff(tcb: map<Tid, Tcb>, r: map<Tid, Tcb>, occurred: set<Tid>)
    requires JoinOk(tcb) && r.Keys == tcb.Keys
    requires forall u | u in tcb :: r[u] == AfterEvent(tcb[u], u in occurred)
    requires forall u | u in tcb :: tcb[u].place == WQ ==> tcb[u].state == Waiting
    ensures JoinOk(r) <==> RecordedStay(tcb, occurred)
  {
    if RecordedStay(tcb, occurred) {
      forall t | t in r ensures RecordOk(r, t) {
        assert RecordOk(tcb, t);
      }
    }
    if JoinOk(r) {
      forall t | t in tcb && tcb[t].state != Dead && tcb[t].joinedThread.Some?
        ensures var j := tcb[t].joinedThread.value; !(j in occurred && j in tcb && tcb[j].place == WQ)
      {
        assert RecordOk(r, t);
      }
    }
  }

  // ---- runs ----

  /** The event manager wakes no joiner that is recorded with a thread still alive. */
  ghost predicate Faithful(s: Sched, op: Op) {
    op.DoEvents? ==> RecordedStay(s.tcb, op.occurred)
  }

  lemma StepKeepsJoinOk(s: Sched, op: Op)
    requires Inv(s) && Enabled(s, op) && !s.running && JoinOk(s.tcb) && Faithful(s, op)
    ensures JoinOk(ApplyStep(s, op).tcb)
  {
    match op
    case DoSettle => SettleKeepsJoinOk(s);
    case DoPromote => PromoteKeepsJoinOk(s);
    case DoDispatch => UpdateKeepsJoinOk(s.tcb, Head(s), s.tcb[Head(s)].(place := Nowhere));
    case DoEvents(occurred) => EventsJoinOkIff(s, occurred);
    case _ =>
  }

  lemma FaithfulStep(s: Sched, op: Op)
    requires Inv(s) && JoinOk(s.tcb) && Enabled(s, op) && Faithful(s, op)
    ensures JoinOk(Apply(s, op).tcb)
  {
    if s.running {
      CallKeepsJoinOk(s, op);
    } else {
      StepKeepsJoinOk(s, op);
    }
  }

  /** Every round of events along the run leaves the recorded joiners of living threads asleep. */
  ghost predicate FaithfulRun(s: Sched, ops: seq<Op>)
    requires Inv(s) && Tried(s, ops)
    decreases |ops|
  {
    ops == [] || (Faithful(s, ops[0]) && (Enabled(s, ops[0]) ==> FaithfulRun(Apply(s, ops[0]), ops[1..])))
  }

  /** In such runs the recorded joiner exists whenever it is needed: every attempted step has its outcome. */
  lemma {:induction false} FaithfulRunsArePossible(s: Sched, ops: seq<Op>)
    requires Inv(s) && JoinOk(s.tcb) && Tried(s, ops) && FaithfulRun(s, ops)
    ensures Possible(s, ops) && JoinOk(Run(s, ops).tcb) && !Lost(Run(s, ops))
    decreases |ops|
  {
    JoinOkMakesJoinerLive(s);
    if ops != [] {
      FaithfulStep(s, ops[0]);
      FaithfulRunsArePossible(Apply(s, ops[0]), ops[1..]);
    }
  }

  /** So from the start such runs go through to their end, and the threads stay partitioned. */
  lemma FaithfulRunsKeepPartition(main: Tcb, ops: seq<Op>, t: Tid)
    requires main.state == Ready && !main.waited && main.place == Nowhere && main.joinedThread == None
    requires Tried(Init(main), ops) && FaithfulRun(Init(main), ops)
    ensures Possible(Init(main), ops) && Partitioned(Run(Init(main), ops), t) && !Lost(Run(Init(main), ops))
  {
    FaithfulRunsArePossible(Init(main), ops);
    OnePlace(Run(Init(main), ops), t);
  }
}
