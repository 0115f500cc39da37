/**
 The other side of SchedLost: threads that all end as soon as they run, and
 stay to be joined, never lose a joiner, however early they are woken; nor is
 there time to lose one when the main thread is first to run and to end.
 */
module SchedEnds {
  import opened Basics
  import opened PriorityList
  import opened SchedQueue
  import opened Sched
  import opened SchedOps
  import opened SchedRuns
  import opened SchedJoins
  import opened SchedHunt
  import opened SchedLost

  /** The thread has ended, is being cancelled where it waits, or is suspended; it is kept when it ends. */
  ghost predicate Ending(tcb: map<Tid, Tcb>, c: Tcb) {
    && c.joinable && (c.joinedThread.Some? ==> c.joinedThread.value in tcb)
    && (Doomed(c) || c.state == Exit || c.state == Dead || c.place == SQ)
  }

  ghost predicate AllEnding(tcb: map<Tid, Tcb>) {
    forall t | t in tcb :: Ending(tcb, tcb[t])
  }

  lemma UpdateKeepsEnding(tcb: map<Tid, Tcb>, t: Tid, c: Tcb)
    requires AllEnding(tcb) && t in tcb && Ending(tcb, c)
    ensures AllEnding(tcb[t := c])
  {
    var r := tcb[t := c];
    forall u | u in r ensures Ending(r, r[u]) {
      assert Ending(tcb, tcb[u]);
    }
  }

  lemma KeptEnding(tcb: map<Tid, Tcb>, t: Tid)
    requires AllEnding(tcb) && t in tcb
    requires forall u | u in tcb && tcb[u].waited :: tcb[u].state == Waiting && tcb[u].place == WQ
    ensures AllEnding(KeptForJoin(tcb, t))
  {
    var c := tcb[t].(state := Dead, place := DQ);
    var d := tcb[t := c];
    UpdateKeepsEnding(tcb, t, c);
    var j := tcb[t].joinedThread;
    if j.Some? && j.value in d && d[j.value].waited && j.value != t {
      UpdateKeepsEnding(d, j.value, Woken(d[j.value]));
    }
  }

  lemma SettledEnding(s: Sched)
    requires Inv(s) && !s.running && s.current.Some? && AllEnding(s.tcb)
    ensures JoinerLive(s) && AllEnding(Settle(s).tcb)
  {
    var t := s.current.value;
    assert Ending(s.tcb, s.tcb[t]) && StateFits(s.tcb[t], false);
    forall u | u in s.tcb && s.tcb[u].waited ensures s.tcb[u].state == Waiting && s.tcb[u].place == WQ {
      assert StateFits(s.tcb[u], false);
    }
    SettledTcbEnding(s.tcb, t);
  }

  lemma SettledTcbEnding(tcb: map<Tid, Tcb>, t: Tid)
    requires AllEnding(tcb) && t in tcb && tcb[t].state != Dead && tcb[t].place == Nowhere
    requires forall u | u in tcb && tcb[u].waited :: tcb[u].state == Waiting && tcb[u].place == WQ
    ensures AllEnding(SettledTcb(tcb, t))
  {
    assert Ending(tcb, tcb[t]);
    if tcb[t].state == Waiting {
      UpdateKeepsEnding(tcb, t, tcb[t].(place := WQ, waited := true));
    } else if tcb[t].state != Exit {
      UpdateKeepsEnding(tcb, t, tcb[t].(place := RQ));
    } else {
      KeptEnding(tcb, t);
    }
  }

  /** Each thread changes in a way that keeps it ending. */
  lemma PointwiseEnding(a: map<Tid, Tcb>, b: map<Tid, Tcb>)
    requires AllEnding(a) && forall t :: t in b <==> t in a
    requires forall t | t in a :: b[t] == a[t] || b[t] == Woken(a[t]) || b[t] == a[t].(state := Ready, place := RQ)
    requires forall t | t in a && b[t] != a[t] :: a[t].state != Dead && a[t].state != Exit && a[t].place != SQ
    ensures AllEnding(b)
  {
    forall t | t in b ensures Ending(b, b[t]) {
      assert Ending(a, a[t]);
    }
  }

  lemma PromotedEnding(s: Sched)
    requires Inv(s) && AllEnding(s.tcb)
    ensures AllEnding(Promote(s).tcb)
  {
    var r := Promote(s).tcb;
    forall t ensures t in r <==> t in s.tcb
      ensures t in s.tcb ==> r[t] == if s.tcb[t].place == NQ then s.tcb[t].(state := Ready, place := RQ) else s.tcb[t]
    {
      PromotesNew(s, t);
    }
    forall t | t in s.tcb && s.tcb[t].place == NQ ensures s.tcb[t].state == New {
      assert StateFits(s.tcb[t], s.running);
    }
    PointwiseEnding(s.tcb, r);
  }

  lemma WokenEnding(s: Sched, occurred: set<Tid>)
    requires Inv(s) && AllEnding(s.tcb)
    ensures AllEnding(Events(s, s.wq, occurred).tcb)
  {
    var r := Events(s, s.wq, occurred).tcb;
    forall t
      ensures t in r <==> t in s.tcb
      ensures t in s.tcb && r[t] != s.tcb[t] ==>
        r[t] == Woken(s.tcb[t]) && s.tcb[t].state == Waiting && s.tcb[t].place == WQ
    {
      EventsWake(s, s.wq, occurred, t);
      if t in s.tcb {
        assert StateFits(s.tcb[t], s.running);
      }
    }
    PointwiseEnding(s.tcb, r);
  }

  lemma DispatchedEnding(s: Sched)
    requires Inv(s) && !s.running && s.current.None? && s.rq != [] && AllEnding(s.tcb)
    ensures AllEnding(Dispatch(s).tcb)
  {
    var h := Head(s);
    assert Ending(s.tcb, s.tcb[h]) && StateFits(s.tcb[h], false);
    UpdateKeepsEnding(s.tcb, h, s.tcb[h].(place := Nowhere));
  }

  /** Whoever has control is inside pth_wait and ends when it returns. */
  lemma ReturnedEnding(s: Sched)
    requires Inv(s) && s.running && AllEnding(s.tcb)
    ensures InCall(s) && AllEnding(WaitReturn(s).s.tcb)
  {
    var me := s.tcb[Self(s)];
    assert Ending(s.tcb, me) && StateFits(me, true);
    var c := Outside(me).(cancelReq := false);
    if !PointEnds(s) {
      assert WaitReturn(s).s == ExitSelf(Marked(s, Self(s), c), CANCELED);
      WrittenTwice(s.tcb, Self(s), c, c.(state := Exit, joinArg := CANCELED));
      UpdateKeepsEnding(s.tcb, Self(s), c.(state := Exit, joinArg := CANCELED));
    }
  }

  lemma StepKeepsEnding(s: Sched, op: Op)
    requires Inv(s) && AllEnding(s.tcb) && Enabled(s, op)
    ensures AllEnding(Apply(s, op).tcb)
  {
    if s.running {
      ReturnedEnding(s);
      assert op == DoReturn;
    } else {
      match op
      case DoSettle => SettledEnding(s);
      case DoPromote => PromotedEnding(s);
      case DoDispatch => DispatchedEnding(s);
      case DoEvents(occurred) => WokenEnding(s, occurred);
      case _ =>
    }
  }

  lemma {:induction false} EndingNeverLost(s: Sched, ops: seq<Op>)
    requires Inv(s) && AllEnding(s.tcb) && Possible(s, ops)
    ensures !Lost(Run(s, ops))
    decreases |ops|
  {
    if ops == [] {
      if !s.running && s.current.Some? {
        SettledEnding(s);
      }
    } else {
      StepKeepsEnding(s, ops[0]);
      EndingNeverLost(Apply(s, ops[0]), ops[1..]);
    }
  }

  /**
   When all threads that are not suspended are cancelled joiners, and all are
   kept at their end, no round of events can lose a joiner.
   */
  lemma CanceledJoinersNeverLose(s: Sched, occurred: set<Tid>)
    requires Inv(s) && AllEnding(s.tcb)
    ensures !CanEverLose(Events(s, s.wq, occurred))
  {
    WokenEnding(s, occurred);
    var r := Events(s, s.wq, occurred);
    forall ops | Possible(r, ops) ensures !Lost(Run(r, ops)) {
      EndingNeverLost(r, ops);
    }
  }

  /** A thread that waits in pth_join for the other, is waited for by it, and is being cancelled. */
  function MutualJoiner(other: Tid): Tcb {
    Tcb(Waiting, WQ, 0, 0, true, true, true, false, true, Some(other), 1, Some(other), false, 0)
  }

  function TwoJoiners(t: Tid, j: Tid): Sched {
    Sched([], [], [Entry(t, 0), Entry(j, 0)], [], [], None, false, map[t := MutualJoiner(j), j := MutualJoiner(t)], 2)
  }

  lemma NoneQueued(tcb: map<Tid, Tcb>, pl: Place)
    requires forall u | u in tcb :: tcb[u].place != pl
    ensures Backed(tcb, [], pl)
  {
  }

  lemma TwoQueued(tcb: map<Tid, Tcb>, wq: Queue, t: Tid, j: Tid)
    requires t != j && wq == [Entry(t, 0), Entry(j, 0)] && tcb == map[t := MutualJoiner(j), j := MutualJoiner(t)]
    ensures Backed(tcb, wq, WQ)
  {
    assert wq[0].item == t && wq[1].item == j;
  }

  lemma TwoEnding(tcb: map<Tid, Tcb>, t: Tid, j: Tid)
    requires t != j && tcb == map[t := MutualJoiner(j), j := MutualJoiner(t)]
    ensures |tcb| == 2 && JoinOk(tcb) && AllEnding(tcb)
  {
    assert tcb.Keys == {t, j};
  }

  lemma TwoAreQueued(t: Tid, j: Tid, s: Sched)
    requires t != j && s == TwoJoiners(t, j)
    ensures Queued(s)
  {
    TwoQueued(s.tcb, s.wq, t, j);
    NoneQueued(s.tcb, NQ);
    NoneQueued(s.tcb, RQ);
    NoneQueued(s.tcb, SQ);
    NoneQueued(s.tcb, DQ);
  }

  lemma TwoAreAccounted(t: Tid, j: Tid, s: Sched)
    requires t != j && s == TwoJoiners(t, j) && |s.tcb| == 2
    ensures Accounted(s)
  {
  }

  lemma TwoAreConsistent(t: Tid, j: Tid, s: Sched)
    requires t != j && s == TwoJoiners(t, j)
    ensures Inv(s) && AtRest(s) && JoinOk(s.tcb) && AllEnding(s.tcb)
  {
    TwoEnding(s.tcb, t, j);
    TwoAreAccounted(t, j, s);
    TwoAreQueued(t, j, s);
  }

  /** Two threads that join each other, both cancelled: both are woken early, as recorded joiners, and none is lost. */
  lemma EarlyWakeNeedNotLose(t: Tid, j: Tid, s: Sched)
    requires t != j && s == TwoJoiners(t, j)
    ensures Inv(s) && AtRest(s) && JoinOk(s.tcb) && Early(Round(s.tcb, {t, j}), t, j)
    ensures !CanEverLose(Events(s, s.wq, {t, j}))
  {
    TwoAreConsistent(t, j, s);
    CanceledJoinersNeverLose(s, {t, j});
  }

  // ---- the main thread ends first ----

  /** The main thread is bound to end, and nobody can get control before it. */
  ghost predicate MainFirst(tcb: map<Tid, Tcb>) {
    && MAIN in tcb && Doomed(tcb[MAIN])
    && forall u | u in tcb && u != MAIN :: tcb[u].prio < tcb[MAIN].eprio && tcb[u].eprio < tcb[MAIN].eprio
  }

  /** The main thread is ready, or has control. */
  ghost predicate MainNext(s: Sched) {
    && MainFirst(s.tcb)
    && if s.running then s.current == Some(MAIN) else s.current.None? && s.tcb[MAIN].place == RQ
  }

  predicate ReadyAfter(c: Tcb, fires: bool) {
    c.place == RQ || (c.place == WQ && fires && c.prio == c.eprio)
  }

  lemma PointwiseFirst(a: map<Tid, Tcb>, b: map<Tid, Tcb>)
    requires MainFirst(a) && forall u :: u in b <==> u in a
    requires forall u | u in a :: b[u] == a[u] || b[u] == Woken(a[u]) || b[u] == a[u].(state := Ready, place := RQ)
    requires b[MAIN].eprio == a[MAIN].eprio
    ensures MainFirst(b)
  {
  }

  lemma PromotedFirst(s: Sched)
    requires Inv(s) && MainNext(s) && !s.running
    ensures MainNext(Promote(s))
  {
    var r := Promote(s).tcb;
    forall u
      ensures u in r <==> u in s.tcb
      ensures u in s.tcb ==> r[u] == s.tcb[u] || r[u] == s.tcb[u].(state := Ready, place := RQ)
    {
      PromotesNew(s, u);
    }
    PromotesNew(s, MAIN);
    PointwiseFirst(s.tcb, r);
  }

  lemma WokenFirst(s: Sched, occurred: set<Tid>)
    requires Inv(s) && MainFirst(s.tcb) && AtRest(s)
    requires ReadyAfter(s.tcb[MAIN], MAIN in occurred)
    ensures MainNext(Events(s, s.wq, occurred))
  {
    EventsTcb(s, occurred);
    PointwiseFirst(s.tcb, Events(s, s.wq, occurred).tcb);
  }

  lemma DispatchedFirst(s: Sched)
    requires Inv(s) && MainNext(s) && !s.running
    ensures s.rq != [] && MainNext(Dispatch(s))
  {
    HeadFits(s, MAIN);
    DispatchesBest(s, MAIN);
  }

  /** With the main thread in control every step would end the process. */
  lemma NothingAfterMain(s: Sched, op: Op)
    requires Inv(s) && MainNext(s) && s.running
    ensures !Attempted(s, op)
  {
  }

  lemma {:induction false} MainFirstNeverLost(s: Sched, ops: seq<Op>)
    requires Inv(s) && MainNext(s) && Possible(s, ops)
    ensures !Lost(Run(s, ops))
    decreases |ops|
  {
    if ops != [] {
      if s.running {
        NothingAfterMain(s, ops[0]);
      } else {
        match ops[0] {
          case DoPromote => PromotedFirst(s);
          case DoEvents(occurred) => WokenFirst(s, occurred);
          case DoDispatch => DispatchedFirst(s);
          case _ =>
        }
        MainFirstNeverLost(Apply(s, ops[0]), ops[1..]);
      }
    }
  }

  /** A cancelled main thread of the highest priority, once ready, ends the process before a joiner can be lost. */
  lemma CanceledMainNeverLoses(s: Sched, occurred: set<Tid>)
    requires Inv(s) && MainFirst(s.tcb) && AtRest(s)
    requires ReadyAfter(s.tcb[MAIN], MAIN in occurred)
    ensures !CanEverLose(Events(s, s.wq, occurred))
  {
    WokenFirst(s, occurred);
    var r := Events(s, s.wq, occurred);
    forall ops | Possible(r, ops) ensures !Lost(Run(r, ops)) {
      MainFirstNeverLost(r, ops);
    }
  }
}
