/**
 When a joiner is woken before its target has ended: from there the scheduler
 can come to read the control block of a joiner that this round has woken and
 that is gone.
 */
module SchedLost {
  import opened Basics
  import opened SchedQueue
  import opened Sched
  import opened SchedOps
  import opened SchedRuns
  import opened SchedJoins
  import opened SchedCycle
  import opened SchedHunt

  // ---- the target ends after its joiner is gone ----

  /** The target runs: it collects what is left of its joiner, if need be, and ends. */
  lemma {:induction false} TargetEnds(s: Sched, rd: Round, t: Tid, j: Tid)
    requires Inv(s) && s.running && s.current == Some(t) && !InCall(s)
    requires Prey(s.tcb, t, j) && Early(rd, t, j) && Ended(s.tcb, j)
    ensures CanLose(s, Thread, rd)
    decreases if j in s.tcb then if s.tcb[j].joinedCount > 0 then s.tcb[j].joinedCount + 1 else 1 else 0
  {
    if j !in s.tcb {
      LeavesOneBehind(s, rd, t, j);
    } else {
      JoinsDead(s, t, j);
      var r := Join(s, Some(j)).s;
      TargetEnds(r, rd, t, j);
      CallStep(s, DoJoin(Some(j)), r, rd);
    }
  }

  /** So as not to be the last, the target starts another thread before it ends. */
  lemma LeavesOneBehind(s: Sched, rd: Round, t: Tid, j: Tid)
    requires Inv(s) && s.running && s.current == Some(t) && !InCall(s)
    requires Prey(s.tcb, t, j) && Early(rd, t, j) && j !in s.tcb
    ensures CanLose(s, Thread, rd)
  {
    var u := NewName(s.tcb.Keys + {j});
    var c := s.tcb[t];
    var m := Spawn(s, u, c, true);
    BornTcb(s.tcb, m.tcb, u, t, j);
    TargetLeaves(m, rd, t, j, u);
    CallStep(s, DoSpawn(u, c, true), m, rd);
  }

  lemma BornTcb(a: map<Tid, Tcb>, b: map<Tid, Tcb>, u: Tid, t: Tid, j: Tid)
    requires t in a && u !in a && u != j && j !in a && u in b && b == a[u := b[u]] && b[u].state != Dead
    ensures b[t] == a[t] && j !in b && u in Alive(b) && u != t
  {
  }

  lemma TargetLeaves(s: Sched, rd: Round, t: Tid, j: Tid, u: Tid)
    requires Inv(s) && s.running && s.current == Some(t) && !InCall(s) && u in Alive(s.tcb) && u != t
    requires s.tcb[t].joinable && s.tcb[t].joinedThread == Some(j) && j !in s.tcb && Early(rd, t, j)
    ensures CanLose(s, Thread, rd)
  {
    NotTheLast(s, u);
    LeavesLost(s, rd, t, j);
    CallStep(s, DoExit(0, true), ExitSelf(s, 0), rd);
  }

  lemma LeavesLost(s: Sched, rd: Round, t: Tid, j: Tid)
    requires Inv(s) && s.running && s.current == Some(t)
    requires s.tcb[t].joinable && s.tcb[t].joinedThread == Some(j) && j !in s.tcb && Early(rd, t, j)
    ensures CanLose(ExitSelf(s, 0), Thread, rd)
  {
    ExitedLost(ExitSelf(s, 0), rd, t, j);
  }

  lemma ExitedLost(e: Sched, rd: Round, t: Tid, j: Tid)
    requires Inv(e) && !e.running && e.current == Some(t) && e.tcb[t].state == Exit
    requires e.tcb[t].joinable && e.tcb[t].joinedThread == Some(j) && j !in e.tcb && Early(rd, t, j)
    ensures CanLose(e, Thread, rd)
  {
    IsLostTo(e, rd, t, j);
    Now(e, Thread, rd);
  }

  lemma IsLostTo(e: Sched, rd: Round, t: Tid, j: Tid)
    requires !e.running && e.current == Some(t) && t in e.tcb && e.tcb[t].state == Exit
    requires e.tcb[t].joinable && e.tcb[t].joinedThread == Some(j) && j !in e.tcb && Early(rd, t, j)
    ensures LostTo(e, rd)
  {
  }

  /** There is always another name for a thread. */
  lemma {:induction false} NewName(names: set<Tid>) returns (u: Tid)
    ensures u !in names && forall x | x in names :: x < u
    decreases |names|
  {
    u := 0;
    if x :| x in names {
      var v := NewName(names - {x});
      u := if x < v then v else x + 1;
      assert forall y | y in names :: y == x || y in names - {x};
    }
  }

  lemma JoinsDead(s: Sched, t: Tid, j: Tid)
    requires Inv(s) && s.running && s.current == Some(t) && !InCall(s)
    requires Prey(s.tcb, t, j) && Ended(s.tcb, j) && j in s.tcb
    ensures var r := Join(s, Some(j)).s;
      && r.running && r.current == s.current && !InCall(r) && Prey(r.tcb, t, j) && Ended(r.tcb, j)
      && (j in r.tcb ==> s.tcb[j].joinedCount > 1 && r.tcb[j].joinedCount == s.tcb[j].joinedCount - 1)
  {
    TwoThreads(s, t, j);
    assert JoinRefusal(s, Some(j)) == OK;
    assert Join(s, Some(j)).s == JoinFinish(s, j).s;
    CollectedTcb(s.tcb, JoinFinish(s, j).s.tcb, t, j);
  }

  lemma CollectedTcb(a: map<Tid, Tcb>, b: map<Tid, Tcb>, t: Tid, j: Tid)
    requires Prey(a, t, j) && Ended(a, j) && j in a
    requires b == a - {j} || b == a[j := a[j].(joinedCount := a[j].joinedCount - 1)]
    ensures Prey(b, t, j) && Ended(b, j) && b[t] == a[t]
  {
  }

  lemma TargetRuns(d: Sched, rd: Round, t: Tid, j: Tid)
    requires Inv(d) && d.running && d.current == Some(t) && Prey(d.tcb, t, j) && Early(rd, t, j) && Ended(d.tcb, j)
    ensures CanLose(d, Thread, rd)
  {
    var m := OutOfCall(d, rd);
    PreyOutside(d.tcb, m.tcb, t, j);
    TargetEnds(m, rd, t, j);
  }

  lemma PreyOutside(a: map<Tid, Tcb>, b: map<Tid, Tcb>, t: Tid, j: Tid)
    requires Prey(a, t, j) && Ended(a, j) && t in b && b[t] == Outside(a[t]) && AllQuiet(a, b, t)
    ensures Prey(b, t, j) && Ended(b, j)
  {
    assert Quiet(a, b, j);
  }

  // ---- the chase ----

  lemma HeadFits(s: Sched, x: Tid)
    requires Inv(s) && x in s.tcb && s.tcb[x].place == RQ
    ensures s.rq != [] && Head(s) in s.tcb && s.tcb[Head(s)].place == RQ && s.tcb[Head(s)].state == Ready
  {
    BackedItems(s.tcb, s.rq, RQ);
    assert StateFits(s.tcb[Head(s)], s.running);
  }

  lemma OneFewer(a: map<Tid, Tcb>, b: map<Tid, Tcb>, h: Tid)
    requires h in Alive(a) && Alive(b) == Alive(a) - {h}
    ensures |Alive(b)| < |Alive(a)|
  {
  }

  /** Nobody is ready: the event manager wakes the target. */
  lemma WakeTarget(s: Sched, p: Sched, rd: Round, t: Tid, j: Tid) returns (r: Sched)
    requires Inv(s) && t in s.tcb && Promoted(s, p, rd, t, j) && p.rq == [] && Ended(s.tcb, j) && s.tcb[t].place != SQ
    ensures Inv(r) && AtRest(r) && Hunt(r.tcb, rd, t, j) && Ended(r.tcb, j) && r.tcb[t].place == RQ
    ensures s.tcb[t].place == WQ && Alive(r.tcb) == Alive(s.tcb) && (CanLose(r, Top, rd) ==> CanLose(s, Top, rd))
  {
    InWhichQueue(p, t);
    EndedStays(s.tcb, p.tcb, j);
    r := Events(p, p.wq, {t});
    OnlyTargetWakes(p, r, t, {t});
    WokenTarget(p.tcb, r.tcb, rd, t, j);
    if CanLose(r, Top, rd) {
      EventStep(p, t, rd);
    }
  }

  lemma EndedStays(a: map<Tid, Tcb>, b: map<Tid, Tcb>, j: Tid)
    requires Ended(a, j) && b.Keys == a.Keys && forall u | u in a && a[u].place != NQ :: b[u] == a[u]
    ensures Ended(b, j)
  {
  }

  lemma OnlyTargetWakes(p: Sched, r: Sched, t: Tid, woken: set<Tid>)
    requires Inv(p) && AtRest(p) && t in p.tcb && p.tcb[t].place == WQ && woken == {t} && r == Events(p, p.wq, woken)
    ensures AtRest(r) && t in r.tcb && r.tcb[t] == Woken(p.tcb[t]) && AllQuiet(p.tcb, r.tcb, t)
  {
    EventsTcb(p, woken);
    OneEvent(p.tcb, r.tcb, t, woken);
  }

  lemma OneEvent(a: map<Tid, Tcb>, b: map<Tid, Tcb>, t: Tid, woken: set<Tid>)
    requires t in a && a[t].place == WQ && woken == {t}
    requires b.Keys == a.Keys && forall u | u in a :: b[u] == AfterEvent(a[u], u in woken)
    ensures t in b && b[t] == Woken(a[t]) && AllQuiet(a, b, t)
  {
    forall u | u != t ensures Quiet(a, b, u) {
      assert u in b.Keys <==> u in a.Keys;
    }
  }

  lemma EventStep(p: Sched, t: Tid, rd: Round)
    requires Inv(p) && AtRest(p) && p.rq == [] && Unheard(p.tcb) && CanLose(Events(p, p.wq, {t}), Top, rd)
    ensures CanLose(p, Pick, rd)
  {
    Before(p, Pick, DoEvents({t}), Events(p, p.wq, {t}), Top, rd);
  }

  lemma WokenTarget(a: map<Tid, Tcb>, b: map<Tid, Tcb>, rd: Round, t: Tid, j: Tid)
    requires Hunt(a, rd, t, j) && Ended(a, j) && t in b && b[t] == Woken(a[t]) && AllQuiet(a, b, t)
    ensures Hunt(b, rd, t, j) && Ended(b, j) && b[t].place == RQ && Alive(b) == Alive(a)
  {
    assert Quiet(a, b, j);
    HuntSteady(a, b, t, rd, t, j);
  }

  lemma InWhichQueue(s: Sched, t: Tid)
    requires Inv(s) && AtRest(s) && s.nq == [] && t in s.tcb && s.tcb[t].state != Dead && s.tcb[t].place != SQ
    ensures s.tcb[t].place == RQ || s.tcb[t].place == WQ
    ensures s.rq == [] ==> s.tcb[t].place == WQ
  {
    DeadIsQueued(s, t);
    BackedItems(s.tcb, s.nq, NQ);
    BackedItems(s.tcb, s.rq, RQ);
  }

  /** The joiner has ended: those before the target end, and then the target. */
  lemma {:induction false} TargetChased(s: Sched, rd: Round, t: Tid, j: Tid)
    requires Inv(s) && AtRest(s) && Hunt(s.tcb, rd, t, j) && Ended(s.tcb, j) && s.tcb[t].place != SQ
    ensures CanLose(s, Top, rd)
    decreases |Alive(s.tcb)|, if s.tcb[t].place == WQ then 2 else 1
  {
    var p := PromoteStep(s, rd, t, j);
    if p.rq == [] {
      var r := WakeTarget(s, p, rd, t, j);
      TargetChased(r, rd, t, j);
    } else {
      var d := TakeTurn(s, p, rd, t, j);
      TargetTurn(d, rd, t, j);
    }
  }

  lemma {:induction false} TargetTurn(d: Sched, rd: Round, t: Tid, j: Tid)
    requires Inv(d) && d.running && Hunt(d.tcb, rd, t, j) && Ended(d.tcb, j) && d.tcb[t].place != SQ
    ensures CanLose(d, Thread, rd)
    decreases |Alive(d.tcb)|, 0
  {
    if Self(d) == t {
      TargetRuns(d, rd, t, j);
    } else {
      var lost, r := EndTurn(d, rd, t, j);
      if !lost {
        ChaseGoesOn(d, r.tcb, rd, t, j);
        TargetChased(r, rd, t, j);
      }
    }
  }

  /** One fewer is alive, and the target is not suspended, nor its ended joiner alive, if that was so. */
  lemma ChaseGoesOn(d: Sched, b: map<Tid, Tcb>, rd: Round, t: Tid, j: Tid)
    requires Inv(d) && d.running && Hunt(d.tcb, rd, t, j) && Self(d) != t && HasEnded(d.tcb, b, Self(d))
    requires Alive(b) == Alive(d.tcb) - {Self(d)}
    ensures |Alive(b)| < |Alive(d.tcb)| && t in b
    ensures b[t] == d.tcb[t] || (d.tcb[t].waited && b[t] == Woken(d.tcb[t]))
    ensures Ended(d.tcb, j) || j == Self(d) ==> Ended(b, j)
    ensures j in d.tcb && j != Self(d) && d.tcb[j].place == RQ ==> j in b && b[j] == d.tcb[j]
  {
    DeadIsQueued(d, Self(d));
    OneFewer(d.tcb, b, Self(d));
    assert Stays(d.tcb, b, t, Self(d));
    assert j != Self(d) ==> Stays(d.tcb, b, j, Self(d));
    if j in d.tcb {
      assert StateFits(d.tcb[j], true);
    }
  }

  /** The joiner is ready and the target not suspended: those before the joiner end, and then the joiner. */
  lemma {:induction false} JoinerChased(s: Sched, rd: Round, t: Tid, j: Tid)
    requires Inv(s) && AtRest(s) && Hunt(s.tcb, rd, t, j) && s.tcb[t].place != SQ && j in s.tcb && s.tcb[j].place == RQ
    ensures CanLose(s, Top, rd)
    decreases |Alive(s.tcb)|, if s.tcb[t].place == WQ then 1 else 3
  {
    var p := PromoteStep(s, rd, t, j);
    HeadFits(p, j);
    var d := TakeTurn(s, p, rd, t, j);
    JoinerTurn(d, rd, t, j);
  }

  lemma {:induction false} JoinerTurn(d: Sched, rd: Round, t: Tid, j: Tid)
    requires Inv(d) && d.running && Hunt(d.tcb, rd, t, j) && d.tcb[t].place != SQ
    requires j in d.tcb && (d.tcb[j].place == RQ || Self(d) == j)
    ensures CanLose(d, Thread, rd)
    decreases |Alive(d.tcb)|, if d.tcb[t].place == WQ then 0 else 2
  {
    if Self(d) == t {
      var r := TargetRests(d, rd, t, j);
      StillReady(d, r.tcb, t, j);
      JoinerChased(r, rd, t, j);
    } else {
      var lost, r := EndTurn(d, rd, t, j);
      if !lost {
        ChaseGoesOn(d, r.tcb, rd, t, j);
        if Self(d) == j {
          TargetChased(r, rd, t, j);
        } else {
          JoinerChased(r, rd, t, j);
        }
      }
    }
  }

  lemma StillReady(d: Sched, b: map<Tid, Tcb>, h: Tid, j: Tid)
    requires Inv(d) && AllQuiet(d.tcb, b, h) && j != h && j in d.tcb && d.tcb[j].place == RQ
    ensures j in b && b[j] == d.tcb[j]
  {
    DeadIsQueued(d, j);
    assert Quiet(d.tcb, b, j);
  }

  /** A suspended target is resumed by the joiner itself, which then gives control back. */
  lemma JoinerResumes(d: Sched, rd: Round, t: Tid, j: Tid)
    requires Inv(d) && d.running && d.current == Some(j) && !Doomed(d.tcb[j])
    requires Hunt(d.tcb, rd, t, j) && d.tcb[t].place == SQ
    ensures CanLose(d, Thread, rd)
  {
    var m := OutOfCall(d, rd);
    assert StateFits(d.tcb[j], true);
    HuntSteady(d.tcb, m.tcb, j, rd, t, j);
    var q := Resume(m, Some(t)).s;
    ResumedTcb(m, q, rd, t, j);
    JoinerChased(Settle(q), rd, t, j);
    SettleStep(q, Settle(q), rd);
    CallStep(m, DoResume(Some(t)), q, rd);
  }

  lemma ResumedTcb(m: Sched, q: Sched, rd: Round, t: Tid, j: Tid)
    requires Inv(m) && m.running && m.current == Some(j) && !InCall(m) && Hunt(m.tcb, rd, t, j) && m.tcb[t].place == SQ
    requires q == Resume(m, Some(t)).s
    ensures Inv(q) && !q.running && q.current == Some(j) && JoinerLive(q)
    ensures var r := Settle(q).tcb; Hunt(r, rd, t, j) && r[t].place != SQ && j in r && r[j].place == RQ
  {
    assert StateFits(m.tcb[t], true) && StateFits(m.tcb[j], true);
    var p := Home(m.tcb[t].state);
    assert q.tcb == m.tcb[t := m.tcb[t].(place := p)];
    assert q.tcb[j] == m.tcb[j];
    HuntPlaced(m.tcb, q.tcb, t, p, rd, t, j);
    HuntPlaced(q.tcb, Settle(q).tcb, j, RQ, rd, t, j);
  }

  /** The target is suspended: those before the joiner end. */
  lemma {:induction false} JoinerChasedAlone(s: Sched, rd: Round, t: Tid, j: Tid)
    requires Inv(s) && AtRest(s) && Hunt(s.tcb, rd, t, j) && s.tcb[t].place == SQ
    requires j in s.tcb && s.tcb[j].place == RQ && !Doomed(s.tcb[j])
    ensures CanLose(s, Top, rd)
    decreases |Alive(s.tcb)|, 1
  {
    var p := PromoteStep(s, rd, t, j);
    HeadFits(p, j);
    var d := TakeTurn(s, p, rd, t, j);
    JoinerTurnAlone(d, rd, t, j);
  }

  lemma {:induction false} JoinerTurnAlone(d: Sched, rd: Round, t: Tid, j: Tid)
    requires Inv(d) && d.running && Hunt(d.tcb, rd, t, j) && d.tcb[t].place == SQ
    requires j in d.tcb && (d.tcb[j].place == RQ || Self(d) == j) && !Doomed(d.tcb[j])
    ensures CanLose(d, Thread, rd)
    decreases |Alive(d.tcb)|, 0
  {
    if Self(d) == j {
      JoinerResumes(d, rd, t, j);
    } else {
      var lost, r := EndTurn(d, rd, t, j);
      if !lost {
        ChaseGoesOn(d, r.tcb, rd, t, j);
        JoinerChasedAlone(r, rd, t, j);
      }
    }
  }

  // ---- the theorem ----

  lemma HuntBegins(a: map<Tid, Tcb>, b: map<Tid, Tcb>, rd: Round, t: Tid, j: Tid)
    requires rd.tcb == a && Prey(a, t, j) && Early(rd, t, j) && MainStays(a) && JoinOk(a)
    requires b.Keys == a.Keys && forall u | u in a :: b[u] == AfterEvent(a[u], u in rd.occurred)
    requires forall u | u in a && a[u].place == WQ :: a[u].state == Waiting && (a[u].cancelReq ==> u in rd.occurred)
    ensures Hunt(b, rd, t, j) && b[j].place == RQ && Doomed(b[j]) == Doomed(a[j])
    ensures a[t].place == SQ <==> b[t].place == SQ
  {
    forall u | u in b && b[u].state != Dead && b[u].joinedThread.Some?
      ensures var i := b[u].joinedThread.value; i == t || Early(rd, u, i) || Awaits(b, i, u)
    {
      assert RecordOk(a, u);
    }
  }

  /**
   A round of events that wakes a recorded joiner before its target has ended
   can be followed, in the order of the loop, by the read of a joiner that this
   round has woken and that is gone. Not so if the target is asked to end, the
   main thread is bound to end and takes the process with it, or the target is
   suspended while the joiner is bound to end.
   */
  lemma EarlyWakeCanLose(s: Sched, occurred: set<Tid>, t: Tid, j: Tid)
    requires Inv(s) && JoinOk(s.tcb) && Attempted(s, DoEvents(occurred)) && Early(Round(s.tcb, occurred), t, j)
    requires !s.tcb[t].cancelReq && (s.tcb[t].place == SQ ==> !Doomed(s.tcb[j])) && MainStays(s.tcb)
    ensures CanLose(Events(s, s.wq, occurred), Top, Round(s.tcb, occurred))
  {
    var r := Events(s, s.wq, occurred);
    var rd := Round(s.tcb, occurred);
    assert RecordOk(s.tcb, t);
    EventsTcb(s, occurred);
    forall u | u in s.tcb && s.tcb[u].place == WQ ensures s.tcb[u].state == Waiting {
      assert StateFits(s.tcb[u], false);
    }
    HuntBegins(s.tcb, r.tcb, rd, t, j);
    if s.tcb[t].place == SQ {
      JoinerChasedAlone(r, rd, t, j);
    } else {
      JoinerChased(r, rd, t, j);
    }
  }

  // ---- from the start ----

  /** Some round of events can be followed by the read of a joiner that it has woken and that is gone. */
  ghost predicate CanLoseSome(s: Sched, at: Phase)
    requires Inv(s)
  {
    exists rd :: CanLose(s, at, rd)
  }

  lemma SomeBefore(s: Sched, at: Phase, op: Op, r: Sched, next: Phase)
    requires Inv(s) && Enabled(s, op) && Follows(s, at, op) && r == Apply(s, op) && next == After(s, at, op, r)
    requires CanLoseSome(r, next)
    ensures CanLoseSome(s, at)
  {
    var rd :| CanLose(r, next, rd);
    Before(s, at, op, r, next, rd);
  }

  /** Somebody joins a sleeping thread, sleeps, and the only event that the event manager finds is for the joiner. */
  lemma JoinCanLose(s: Sched, t: Tid)
    requires Inv(s) && s.running && !InCall(s) && t in s.tcb && t != Self(s) && JoinOk(s.tcb)
    requires s.tcb[t].joinable && s.tcb[t].place == WQ && s.rq == [] && s.nq == []
    requires forall u | u in s.tcb :: !s.tcb[u].cancelReq
    ensures CanLoseSome(s, Thread)
  {
    assert StateFits(s.tcb[t], true);
    TwoThreads(s, t, Self(s));
    var b := Join(s, Some(t)).s;
    JoinKeeps(s, Some(t));
    BackedItems(s.tcb, s.rq, RQ);
    BackedItems(s.tcb, s.nq, NQ);
    var rd := SleepThenWoken(s.tcb, b, t, Self(s));
    CallStep(s, DoJoin(Some(t)), b, rd);
  }

  lemma SleepThenWoken(a: map<Tid, Tcb>, b: Sched, t: Tid, j: Tid) returns (rd: Round)
    requires t in a && j in a && t != j && a[t].joinable && a[t].place == WQ && a[t].state != Dead
    requires forall u | u in a :: !a[u].cancelReq && a[u].place != RQ && a[u].place != NQ
    requires Inv(b) && !b.running && b.current == Some(j) && b.tcb == Recorded(a, j, t) && JoinOk(b.tcb)
    ensures CanLose(b, Thread, rd)
  {
    SleeperSettles(b, j);
    var r := Settle(b);
    rd := Round(r.tcb, {j});
    SettleKeepsJoinOk(b);
    SleptTcb(a, b.tcb, r.tcb, rd, t, j);
    WokenFromSleep(r, rd, t, j);
    TopOrBack(b, r);
    SettleBefore(b, r, Back, rd);
  }

  lemma SleeperSettles(b: Sched, j: Tid)
    requires Inv(b) && !b.running && b.current == Some(j) && b.tcb[j].state == Waiting
    ensures JoinerLive(b) && !WakesJoiner(b) && Settle(b).tcb == b.tcb[j := b.tcb[j].(place := WQ, waited := true)]
  {
  }

  /** Nobody is ready or new, and the event manager wakes the joiner. */
  lemma WokenFromSleep(r: Sched, rd: Round, t: Tid, j: Tid)
    requires Inv(r) && AtRest(r) && JoinOk(r.tcb) && rd == Round(r.tcb, {j}) && Early(rd, t, j) && r.tcb[t].place == WQ
    requires MainStays(r.tcb)
    requires forall u | u in r.tcb :: !r.tcb[u].cancelReq && r.tcb[u].place != RQ && r.tcb[u].place != NQ
    ensures r.rq == [] && r.nq == [] && CanLose(r, Back, rd)
  {
    NobodyQueued(r.tcb, r.rq, RQ);
    NobodyQueued(r.tcb, r.nq, NQ);
    EarlyWakeCanLose(r, {j}, t, j);
    Before(r, Back, DoEvents({j}), Events(r, r.wq, {j}), Top, rd);
  }

  lemma NobodyQueued(tcb: map<Tid, Tcb>, q: Queue, pl: Place)
    requires Backed(tcb, q, pl) && forall u | u in tcb :: tcb[u].place != pl
    ensures q == []
  {
    BackedItems(tcb, q, pl);
    assert q != [] ==> q[0].item in Items(q);
  }

  lemma SleptTcb(a: map<Tid, Tcb>, b: map<Tid, Tcb>, c: map<Tid, Tcb>, rd: Round, t: Tid, j: Tid)
    requires j in a && t in a && t != j && a[t].state != Dead
    requires forall u | u in a :: !a[u].cancelReq && a[u].place != RQ && a[u].place != NQ
    requires b == Recorded(a, j, t) && c == b[j := b[j].(place := WQ, waited := true)] && rd == Round(c, {j})
    ensures Early(rd, t, j) && c[t].place == a[t].place && MainStays(c)
    ensures forall u | u in c :: !c[u].cancelReq && c[u].place != RQ && c[u].place != NQ
  {
  }

  /**
   The main thread starts another and sleeps; the other joins it, is woken early
   and ends; then the main thread starts a third thread and ends as well. So
   whatever main thread may be joined, the loop can take some run from the start
   to the read of a joiner that is gone.
   */
  lemma SomeRunIsLost(main: Tcb, c: Tcb)
    requires main.state == Ready && !main.waited && main.place == Nowhere && main.joinable && !main.cancelReq
    requires main.joining == None && !main.atPoint && main.joinedThread == None
    ensures CanLoseSome(Init(main), Thread)
  {
    MainStarts(Init(main), c);
  }

  lemma MainStarts(i: Sched, c: Tcb)
    requires Inv(i) && i.running && i.current == Some(MAIN) && i.tcb.Keys == {MAIN} && !InCall(i)
    requires i.tcb[MAIN].joinable && !i.tcb[MAIN].cancelReq && i.tcb[MAIN].joinedThread == None
    ensures CanLoseSome(i, Thread)
  {
    var s := Spawn(i, 1, c, false);
    StartedTcb(i.tcb, c, s.tcb);
    MainSleeps(s);
    SomeBefore(i, Thread, DoSpawn(1, c, false), s, Thread);
  }

  lemma StartedTcb(a: map<Tid, Tcb>, c: Tcb, b: map<Tid, Tcb>)
    requires a.Keys == {MAIN} && !a[MAIN].cancelReq && a[MAIN].joinedThread == None && b == a[1 := Fresh(c, false)]
    ensures b.Keys == {MAIN, 1} && b[MAIN] == a[MAIN] && b[1].place == NQ && !Inside(b[1])
    ensures forall u | u in b :: !b[u].cancelReq && b[u].joinedThread == None
  {
  }

  lemma MainSleeps(s: Sched)
    requires Inv(s) && s.running && s.current == Some(MAIN) && s.tcb.Keys == {MAIN, 1} && !InCall(s)
    requires s.tcb[MAIN].joinable && s.tcb[1].place == NQ && !Inside(s.tcb[1])
    requires forall u | u in s.tcb :: !s.tcb[u].cancelReq && s.tcb[u].joinedThread == None
    ensures CanLoseSome(s, Thread)
  {
    var b := Block(s, false);
    SleeperSettles(b, MAIN);
    var r := Settle(b);
    AsleepTcb(s.tcb, b.tcb, r.tcb);
    StartedRests(r);
    TopAfter(b, r);
    SomeBefore(b, Thread, DoSettle, r, Top);
    SomeBefore(s, Thread, DoWait(false), b, Thread);
  }

  lemma AsleepTcb(a: map<Tid, Tcb>, b: map<Tid, Tcb>, c: map<Tid, Tcb>)
    requires a.Keys == {MAIN, 1} && b == a[MAIN := a[MAIN].(state := Waiting, atPoint := false)]
    requires c == b[MAIN := b[MAIN].(place := WQ, waited := true)]
    requires forall u | u in a :: !a[u].cancelReq && a[u].joinedThread == None
    ensures c.Keys == {MAIN, 1} && c[1] == a[1] && c[MAIN].place == WQ && c[MAIN].joinable == a[MAIN].joinable
    ensures forall u | u in c :: !c[u].cancelReq && c[u].joinedThread == None
  {
  }

  lemma TopAfter(b: Sched, r: Sched)
    requires !b.running && r.rq == [] && r.nq != []
    ensures After(b, Thread, DoSettle, r) == Top
  {
  }

  /** The main thread sleeps and the other is new. */
  lemma StartedRests(r: Sched)
    requires Inv(r) && AtRest(r) && r.tcb.Keys == {MAIN, 1} && r.tcb[MAIN].place == WQ && r.tcb[MAIN].joinable
    requires r.tcb[1].place == NQ && !Inside(r.tcb[1])
    requires forall u | u in r.tcb :: !r.tcb[u].cancelReq && r.tcb[u].joinedThread == None
    ensures r.rq == [] && r.nq != [] && CanLoseSome(r, Top)
  {
    OnlyNew(r);
    BothPromoted(r, Promote(r), 1);
    OtherIsReady(Promote(r));
    SomeBefore(r, Top, DoPromote, Promote(r), Pick);
  }

  lemma OnlyNew(r: Sched)
    requires Inv(r) && r.tcb.Keys == {MAIN, 1} && r.tcb[MAIN].place == WQ && r.tcb[1].place == NQ
    ensures r.rq == [] && r.nq != []
  {
    NobodyQueued(r.tcb, r.rq, RQ);
    BackedItems(r.tcb, r.nq, NQ);
  }

  lemma BothPromoted(r: Sched, p: Sched, o: Tid)
    requires Inv(r) && r.tcb.Keys == {MAIN, o} && r.tcb[MAIN].place == WQ && r.tcb[o].place == NQ && p == Promote(r)
    requires forall u | u in r.tcb :: !r.tcb[u].cancelReq && r.tcb[u].joinedThread == None
    ensures p.tcb.Keys == {MAIN, o} && p.tcb[MAIN] == r.tcb[MAIN] && p.tcb[o] == r.tcb[o].(state := Ready, place := RQ)
    ensures forall u | u in p.tcb :: !p.tcb[u].cancelReq && p.tcb[u].joinedThread == None
  {
    PromotesNobodyElse(r);
    forall u | u in p.tcb ensures !p.tcb[u].cancelReq && p.tcb[u].joinedThread == None {
      PromotesNew(r, u);
    }
    PromotesNew(r, MAIN);
    PromotesNew(r, o);
  }

  lemma OtherIsReady(p: Sched)
    requires Inv(p) && AtRest(p) && p.nq == [] && p.tcb.Keys == {MAIN, 1}
    requires p.tcb[MAIN].place == WQ && p.tcb[MAIN].joinable && p.tcb[1].place == RQ && !Inside(p.tcb[1])
    requires forall u | u in p.tcb :: !p.tcb[u].cancelReq && p.tcb[u].joinedThread == None
    ensures CanLoseSome(p, Pick)
  {
    HeadFits(p, 1);
    assert Head(p) == 1;
    var d := Dispatch(p);
    OtherHasControl(p.tcb, d.tcb);
    NobodyQueued(d.tcb, d.rq, RQ);
    NobodyQueued(d.tcb, d.nq, NQ);
    JoinCanLose(d, MAIN);
    SomeBefore(p, Pick, DoDispatch, d, Thread);
  }

  lemma OtherHasControl(a: map<Tid, Tcb>, b: map<Tid, Tcb>)
    requires a.Keys == {MAIN, 1} && a[MAIN].place == WQ && b == a[1 := a[1].(place := Nowhere)]
    requires forall u | u in a :: !a[u].cancelReq && a[u].joinedThread == None
    ensures b[MAIN] == a[MAIN] && JoinOk(b)
    ensures forall u | u in b :: !b[u].cancelReq && b[u].place != RQ && b[u].place != NQ
  {
  }

  // ---- any run at all ----

  /** Some steps from here, in whatever order, lead to the read of some joiner that is gone. */
  ghost predicate CanEverLose(s: Sched)
    requires Inv(s)
  {
    exists ops :: Possible(s, ops) && Lost(Run(s, ops))
  }

  lemma LosesSomehow(s: Sched, at: Phase, rd: Round)
    requires Inv(s) && CanLose(s, at, rd)
    ensures CanEverLose(s)
  {
    var ops :| Loses(s, at, ops, rd);
  }
}
