/**
 Runs in the order of the loop that lead to the read of a joiner that is gone:
 what the steps of the loop and the turns of threads do to such a hunt.
 */
module SchedHunt {
  import opened Basics
  import opened SchedQueue
  import opened Sched
  import opened SchedOps
  import opened SchedRuns
  import opened SchedJoins
  import opened SchedCycle

  /** A round of the event manager: what it found, and whom it woke. */
  datatype Round = Round(tcb: map<Tid, Tcb>, occurred: set<Tid>)

  /** The round wakes j, which is recorded with the living t. */
  ghost predicate Early(rd: Round, t: Tid, j: Tid) {
    && t in rd.tcb && rd.tcb[t].state != Dead && rd.tcb[t].joinedThread == Some(j)
    && j in rd.occurred && j in rd.tcb && rd.tcb[j].place == WQ
  }

  /** The joiner about to be read is gone, and it is one that the round has woken early. */
  ghost predicate LostTo(s: Sched, rd: Round) {
    && Lost(s) && s.current.value in s.tcb && s.tcb[s.current.value].joinedThread.Some?
    && Early(rd, s.current.value, s.tcb[s.current.value].joinedThread.value)
  }

  ghost predicate Loses(s: Sched, at: Phase, ops: seq<Op>, rd: Round)
    requires Inv(s)
  {
    Possible(s, ops) && InOrder(s, at, ops) && LostTo(Run(s, ops), rd)
  }

  /** Steps of the loop from here lead to the read of a joiner that the round has woken and that is gone. */
  ghost predicate CanLose(s: Sched, at: Phase, rd: Round)
    requires Inv(s)
  {
    exists ops :: Loses(s, at, ops, rd)
  }

  lemma Now(s: Sched, at: Phase, rd: Round)
    requires Inv(s) && LostTo(s, rd)
    ensures CanLose(s, at, rd)
  {
    assert Loses(s, at, [], rd);
  }

  lemma Cons(s: Sched, at: Phase, op: Op, ops: seq<Op>, all: seq<Op>, rd: Round)
    requires Inv(s) && Enabled(s, op) && Follows(s, at, op) && all == [op] + ops
    requires Loses(Apply(s, op), After(s, at, op, Apply(s, op)), ops, rd)
    ensures Loses(s, at, all, rd)
  {
    OneMore(s, op, ops, all);
    OneMoreInOrder(s, at, op, ops, all);
  }

  lemma Witness(s: Sched, at: Phase, ops: seq<Op>, rd: Round)
    requires Inv(s) && Loses(s, at, ops, rd)
    ensures CanLose(s, at, rd)
  {
  }

  /** One step back. */
  lemma Before(s: Sched, at: Phase, op: Op, r: Sched, next: Phase, rd: Round)
    requires Inv(s) && Enabled(s, op) && Follows(s, at, op) && r == Apply(s, op) && next == After(s, at, op, r)
    requires CanLose(r, next, rd)
    ensures CanLose(s, at, rd)
  {
    var ops :| Loses(r, next, ops, rd);
    Cons(s, at, op, ops, [op] + ops, rd);
    Witness(s, at, [op] + ops, rd);
  }

  // ---- the hunt, by control blocks alone ----

  /** A thread that ends at its cancellation point when it runs again. */
  predicate Doomed(c: Tcb) {
    Inside(c) && c.cancelReq && c.cancelEnabled
  }

  predicate AtRest(s: Sched) {
    !s.running && s.current.None?
  }

  /** The main thread is not bound to end, and the process with it. */
  ghost predicate MainStays(tcb: map<Tid, Tcb>) {
    MAIN in tcb && tcb[MAIN].state != Dead ==> !Doomed(tcb[MAIN])
  }

  /** No waiting thread will be woken for being cancelled. */
  ghost predicate Unheard(tcb: map<Tid, Tcb>) {
    forall u | u in tcb && tcb[u].place == WQ :: !tcb[u].cancelReq
  }

  /** Whoever is recorded with a living thread was woken early by the round, is the target, or sits in pth_join. */
  ghost predicate Tied(tcb: map<Tid, Tcb>, rd: Round, t: Tid) {
    forall u | u in tcb && tcb[u].state != Dead && tcb[u].joinedThread.Some? ::
      var i := tcb[u].joinedThread.value;
      i == t || Early(rd, u, i) || Awaits(tcb, i, u)
  }

  /** Whom the round has woken early waits no more, unless it is the target. */
  ghost predicate Loose(tcb: map<Tid, Tcb>, rd: Round, t: Tid) {
    forall u, i | Early(rd, u, i) && i != t && i in tcb :: tcb[i].state != Waiting
  }

  /** t lives, may be joined, records j, and nobody asked for its end. */
  ghost predicate Prey(tcb: map<Tid, Tcb>, t: Tid, j: Tid) {
    && t in tcb && t != j && tcb[t].state != Dead
    && tcb[t].joinable && tcb[t].joinedThread == Some(j) && !tcb[t].cancelReq
  }

  ghost predicate Hunt(tcb: map<Tid, Tcb>, rd: Round, t: Tid, j: Tid) {
    && Prey(tcb, t, j) && Early(rd, t, j)
    && MainStays(tcb) && Unheard(tcb) && Tied(tcb, rd, t) && Loose(tcb, rd, t)
  }

  ghost predicate Ended(tcb: map<Tid, Tcb>, j: Tid) {
    j in tcb ==> tcb[j].state == Dead && tcb[j].joinable && tcb[j].place == DQ
  }

  /** Nobody but a dead thread is touched, which may be counted down or freed. */
  ghost predicate Quiet(a: map<Tid, Tcb>, b: map<Tid, Tcb>, u: Tid) {
    if u !in a then u !in b
    else if a[u].state == Dead then u in b ==> b[u] == a[u].(joinedCount := b[u].joinedCount)
    else u in b && b[u] == a[u]
  }

  ghost predicate AllQuiet(a: map<Tid, Tcb>, b: map<Tid, Tcb>, h: Tid) {
    forall u | u != h :: Quiet(a, b, u)
  }

  /** The end of h wakes its recorded joiner, and nobody else. */
  ghost predicate Stays(a: map<Tid, Tcb>, b: map<Tid, Tcb>, u: Tid, h: Tid)
    requires h in a
  {
    || Quiet(a, b, u)
    || (&& u in a && u in b && a[u].state == Waiting && a[u].waited && a[h].joinedThread == Some(u)
        && b[u] == Woken(a[u]))
  }

  ghost predicate HasEnded(a: map<Tid, Tcb>, b: map<Tid, Tcb>, h: Tid) {
    && h in a && Ended(b, h)
    && forall u | u != h :: Stays(a, b, u, h)
  }

  // ---- what happens to the hunt ----

  lemma TiedAfterEnd(a: map<Tid, Tcb>, b: map<Tid, Tcb>, h: Tid, rd: Round, t: Tid, u: Tid)
    requires Tied(a, rd, t) && Loose(a, rd, t) && HasEnded(a, b, h) && a[h].state == Ready
    requires u in b && b[u].state != Dead && b[u].joinedThread.Some?
    ensures var i := b[u].joinedThread.value; i == t || Early(rd, u, i) || Awaits(b, i, u)
  {
    assert u != h && Stays(a, b, u, h);
    var i := b[u].joinedThread.value;
    assert i != h ==> Stays(a, b, i, h);
  }

  lemma HuntAfterEnd(a: map<Tid, Tcb>, b: map<Tid, Tcb>, h: Tid, rd: Round, t: Tid, j: Tid)
    requires Hunt(a, rd, t, j) && HasEnded(a, b, h) && h != t && a[h].state == Ready
    ensures Hunt(b, rd, t, j) && Alive(b) == Alive(a) - {h}
    ensures b[t] == a[t] || (a[t].state == Waiting && b[t] == Woken(a[t]))
  {
    forall u ensures u in Alive(b) <==> u in Alive(a) - {h} {
      assert u != h ==> Stays(a, b, u, h);
    }
    forall u | u in b && b[u].state != Dead && b[u].joinedThread.Some?
      ensures var i := b[u].joinedThread.value; i == t || Early(rd, u, i) || Awaits(b, i, u)
    {
      TiedAfterEnd(a, b, h, rd, t, u);
    }
    forall u | u in b && u != h ensures u in a && Stays(a, b, u, h) {
      assert Stays(a, b, u, h);
    }
    assert Stays(a, b, t, h);
    assert h != MAIN ==> Stays(a, b, MAIN, h);
  }

  /** One ready thread, or the target, changes in ways that do not matter; the others are quiet. */
  lemma HuntSteady(a: map<Tid, Tcb>, b: map<Tid, Tcb>, h: Tid, rd: Round, t: Tid, j: Tid)
    requires Hunt(a, rd, t, j) && AllQuiet(a, b, h) && h in a && a[h].state != Dead && h in b && b[h].state != Dead
    requires b[h].joinedThread == a[h].joinedThread && b[h].joinable == a[h].joinable
    requires b[h].cancelReq == a[h].cancelReq
    requires (Doomed(b[h]) ==> Doomed(a[h])) && (b[h].place == WQ ==> !b[h].cancelReq)
    requires h == t || (a[h].state == Ready && b[h].state == Ready)
    ensures Hunt(b, rd, t, j) && Alive(b) == Alive(a) && (h != t ==> b[t] == a[t])
  {
    forall u ensures u in Alive(b) <==> u in Alive(a) {
      assert u != h ==> Quiet(a, b, u);
    }
    forall u | u in b && b[u].state != Dead && b[u].joinedThread.Some?
      ensures var i := b[u].joinedThread.value; i == t || Early(rd, u, i) || Awaits(b, i, u)
    {
      assert u != h ==> Quiet(a, b, u);
      assert b[u].joinedThread.value != h ==> Quiet(a, b, b[u].joinedThread.value);
    }
    forall u | u in b && u != h ensures u in a && Quiet(a, b, u) {
      assert Quiet(a, b, u);
    }
    assert h != t ==> Quiet(a, b, t);
    assert h != MAIN ==> Quiet(a, b, MAIN);
  }

  lemma HuntPlaced(a: map<Tid, Tcb>, b: map<Tid, Tcb>, h: Tid, p: Place, rd: Round, t: Tid, j: Tid)
    requires Hunt(a, rd, t, j) && h in a && b == a[h := a[h].(place := p)] && a[h].state != Dead
    requires h == t || (a[h].state == Ready && p != WQ)
    ensures Hunt(b, rd, t, j) && Alive(b) == Alive(a)
  {
    forall u | u != h ensures Quiet(a, b, u) {
    }
    HuntSteady(a, b, h, rd, t, j);
  }

  lemma HuntPromoted(a: map<Tid, Tcb>, b: map<Tid, Tcb>, rd: Round, t: Tid, j: Tid)
    requires Hunt(a, rd, t, j) && b.Keys == a.Keys && forall u | u in a && a[u].place == NQ :: a[u].state == New
    requires forall u | u in a :: b[u] == if a[u].place == NQ then a[u].(state := Ready, place := RQ) else a[u]
    ensures Hunt(b, rd, t, j) && Alive(b) == Alive(a)
  {
  }

  // ---- steps of the loop ----

  lemma {:induction false} NoEvents(s: Sched, todo: Queue)
    requires Inv(s)
    ensures Events(s, todo, {}) == s
    decreases todo
  {
    if todo != [] {
      NoEvents(s, todo[1..]);
    }
  }

  /** The event manager may find nothing. */
  lemma BackToTop(r: Sched, at: Phase, rd: Round)
    requires Inv(r) && AtRest(r) && Unheard(r.tcb) && (at == Top || at == Back) && CanLose(r, Top, rd)
    ensures CanLose(r, at, rd)
  {
    if at == Back {
      NoEvents(r, r.wq);
      Before(r, Back, DoEvents({}), r, Top, rd);
    }
  }

  lemma SettleStep(e: Sched, r: Sched, rd: Round)
    requires Inv(e) && !e.running && e.current.Some? && JoinerLive(e) && r == Settle(e)
    requires Unheard(r.tcb) && CanLose(r, Top, rd)
    ensures CanLose(e, Thread, rd)
  {
    var next := After(e, Thread, DoSettle, r);
    TopOrBack(e, r);
    BackToTop(r, next, rd);
    SettleBefore(e, r, next, rd);
  }

  lemma TopOrBack(e: Sched, r: Sched)
    requires !e.running
    ensures After(e, Thread, DoSettle, r) == Top || After(e, Thread, DoSettle, r) == Back
    ensures !WakesJoiner(e) && r.rq == [] && r.nq == [] ==> After(e, Thread, DoSettle, r) == Back
  {
  }

  lemma SettleBefore(e: Sched, r: Sched, next: Phase, rd: Round)
    requires Inv(e) && !e.running && e.current.Some? && JoinerLive(e) && r == Settle(e)
    requires next == After(e, Thread, DoSettle, r) && CanLose(r, next, rd)
    ensures CanLose(e, Thread, rd)
  {
    Before(e, Thread, DoSettle, r, next, rd);
  }

  lemma CallStep(s: Sched, op: Op, r: Sched, rd: Round)
    requires Inv(s) && s.running && Enabled(s, op) && r == Apply(s, op) && CanLose(r, Thread, rd)
    ensures CanLose(s, Thread, rd)
  {
    Before(s, Thread, op, r, Thread, rd);
  }

  /** The new threads are ready, and it is time to pick one. */
  ghost predicate Promoted(s: Sched, p: Sched, rd: Round, t: Tid, j: Tid)
    requires Inv(s) && t in s.tcb
  {
    && Inv(p) && AtRest(p) && p.nq == [] && Hunt(p.tcb, rd, t, j) && Alive(p.tcb) == Alive(s.tcb)
    && p.tcb.Keys == s.tcb.Keys && (forall u | u in s.tcb && s.tcb[u].place != NQ :: p.tcb[u] == s.tcb[u])
    && (s.tcb[t].place == NQ ==> p.tcb[t].place == RQ)
    && (CanLose(p, Pick, rd) ==> CanLose(s, Top, rd))
  }

  lemma PromoteStep(s: Sched, rd: Round, t: Tid, j: Tid) returns (p: Sched)
    requires Inv(s) && AtRest(s) && Hunt(s.tcb, rd, t, j)
    ensures Promoted(s, p, rd, t, j)
  {
    p := Promote(s);
    PromotesNobodyElse(s);
    forall u | u in s.tcb
      ensures p.tcb[u] == if s.tcb[u].place == NQ then s.tcb[u].(state := Ready, place := RQ) else s.tcb[u]
      ensures s.tcb[u].place == NQ ==> s.tcb[u].state == New
    {
      PromotesNew(s, u);
      assert StateFits(s.tcb[u], false);
    }
    HuntPromoted(s.tcb, p.tcb, rd, t, j);
    if CanLose(p, Pick, rd) {
      Before(s, Top, DoPromote, p, Pick, rd);
    }
  }

  /** The first ready thread gets control. */
  lemma DispatchStep(p: Sched, rd: Round, t: Tid, j: Tid) returns (d: Sched)
    requires Inv(p) && AtRest(p) && p.nq == [] && p.rq != [] && Hunt(p.tcb, rd, t, j)
    ensures Inv(d) && d.running && d.current == Some(Head(p))
    ensures d.tcb == p.tcb[Head(p) := p.tcb[Head(p)].(place := Nowhere)]
    ensures Hunt(d.tcb, rd, t, j) && Alive(d.tcb) == Alive(p.tcb)
    ensures CanLose(d, Thread, rd) ==> CanLose(p, Pick, rd)
  {
    d := Dispatch(p);
    assert StateFits(p.tcb[Head(p)], false);
    HuntPlaced(p.tcb, d.tcb, Head(p), Nowhere, rd, t, j);
    if CanLose(d, Thread, rd) {
      Before(p, Pick, DoDispatch, d, Thread, rd);
    }
  }

  /** What a promotion and a dispatch leave of places and ends. */
  lemma TurnKeeps(a: map<Tid, Tcb>, b: map<Tid, Tcb>, c: map<Tid, Tcb>, h: Tid, t: Tid, j: Tid)
    requires t in a && b.Keys == a.Keys && forall u | u in a && a[u].place != NQ :: b[u] == a[u]
    requires a[t].place == NQ ==> b[t].place == RQ
    requires h in b && b[h].place == RQ && c == b[h := b[h].(place := Nowhere)]
    ensures (c[t].place == SQ <==> a[t].place == SQ) && (c[t].place == WQ <==> a[t].place == WQ)
    ensures Ended(a, j) ==> Ended(c, j)
    ensures j in a && a[j].place == RQ ==> j in c && (c[j].place == RQ || h == j) && Doomed(c[j]) == Doomed(a[j])
  {
  }

  /** The new threads become ready, and the first of all ready ones gets control. */
  lemma TakeTurn(s: Sched, p: Sched, rd: Round, t: Tid, j: Tid) returns (d: Sched)
    requires Inv(s) && t in s.tcb && Promoted(s, p, rd, t, j) && p.rq != []
    ensures Inv(d) && d.running && Hunt(d.tcb, rd, t, j) && Alive(d.tcb) == Alive(s.tcb)
    ensures CanLose(d, Thread, rd) ==> CanLose(s, Top, rd)
    ensures d.tcb[t].place == SQ <==> s.tcb[t].place == SQ
    ensures d.tcb[t].place == WQ <==> s.tcb[t].place == WQ
    ensures Ended(s.tcb, j) ==> Ended(d.tcb, j)
    ensures j in s.tcb && s.tcb[j].place == RQ ==>
      j in d.tcb && (d.tcb[j].place == RQ || Self(d) == j) && Doomed(d.tcb[j]) == Doomed(s.tcb[j])
  {
    d := DispatchStep(p, rd, t, j);
    TurnKeeps(s.tcb, p.tcb, d.tcb, Head(p), t, j);
  }

  // ---- the turn of one thread ----

  /** Somebody else is alive: an end is not the end of the process. */
  lemma NotTheLast(s: Sched, t: Tid)
    requires Inv(s) && s.running && t in Alive(s.tcb) && t != Self(s)
    ensures GoesOn(s, true) && (Self(s) != MAIN ==> GoesOn(s, false))
  {
    DeadIsQueued(s, Self(s));
    OthersLive(s, Self(s), t);
  }

  /** A thread that is not bound to end comes to where it may call what it likes. */
  lemma OutOfCall(d: Sched, rd: Round) returns (m: Sched)
    requires Inv(d) && d.running && !Doomed(d.tcb[Self(d)])
    ensures Inv(m) && m.running && m.current == d.current && !InCall(m)
    ensures m.tcb[Self(d)] == Outside(d.tcb[Self(d)]) && AllQuiet(d.tcb, m.tcb, Self(d))
    ensures CanLose(m, Thread, rd) ==> CanLose(d, Thread, rd)
  {
    var h := Self(d);
    if InCall(d) {
      m := WaitReturn(d).s;
      ReturnedQuietly(d, m);
      if CanLose(m, Thread, rd) {
        CallStep(d, DoReturn, m, rd);
      }
    } else {
      m := d;
      Unchanged(d.tcb, h);
    }
  }

  lemma Unchanged(tcb: map<Tid, Tcb>, h: Tid)
    ensures AllQuiet(tcb, tcb, h)
  {
  }

  lemma ReturnedQuietly(d: Sched, m: Sched)
    requires Inv(d) && d.running && InCall(d) && !Doomed(d.tcb[Self(d)]) && m == WaitReturn(d).s
    ensures Inv(m) && m.running && m.current == d.current && !InCall(m)
    ensures m.tcb[Self(d)] == Outside(d.tcb[Self(d)]) && AllQuiet(d.tcb, m.tcb, Self(d))
  {
    var me := d.tcb[Self(d)];
    var x := Marked(d, Self(d), Outside(me));
    if me.joining.Some? {
      JoinedQuietly(d.tcb, x, me.joining.value);
    } else {
      WrittenQuietly(d.tcb, x.tcb, Self(d));
    }
  }

  lemma JoinedQuietly(a: map<Tid, Tcb>, x: Sched, u: Tid)
    requires Inv(x) && x.running && Self(x) in a && x.tcb == a[Self(x) := Outside(a[Self(x)])]
    ensures var r := JoinFinish(x, u).s.tcb; Self(x) in r && r[Self(x)] == x.tcb[Self(x)] && AllQuiet(a, r, Self(x))
  {
    DeadIsQueued(x, Self(x));
    if u in x.tcb {
      DeadIsQueued(x, u);
    }
    FinishedQuietly(a, x.tcb, JoinFinish(x, u).s.tcb, Self(x), u);
  }

  lemma FinishedQuietly(a: map<Tid, Tcb>, m: map<Tid, Tcb>, r: map<Tid, Tcb>, h: Tid, u: Tid)
    requires h in a && m == a[h := Outside(a[h])] && m[h].state != Dead
    requires || r == m
             || (&& u in m && m[u].state == Dead
                 && (r == m - {u} || r == m[u := m[u].(joinedCount := m[u].joinedCount - 1)]))
    ensures h in r && r[h] == m[h] && AllQuiet(a, r, h)
  {
  }

  /** h is about to be reaped, and the others are quiet. */
  ghost predicate Exiting(a: map<Tid, Tcb>, e: map<Tid, Tcb>, h: Tid) {
    && h in a && h in e && e[h].state == Exit && !e[h].waited
    && e[h].joinable == a[h].joinable && e[h].joinedThread == a[h].joinedThread && AllQuiet(a, e, h)
  }

  /** A cancelled thread returns from its wait. */
  lemma EndsAtPoint(d: Sched, t: Tid, rd: Round) returns (e: Sched)
    requires Inv(d) && d.running && Doomed(d.tcb[Self(d)]) && Self(d) != MAIN && Self(d) != t && t in Alive(d.tcb)
    ensures Inv(e) && !e.running && e.current == d.current && Exiting(d.tcb, e.tcb, Self(d))
    ensures CanLose(e, Thread, rd) ==> CanLose(d, Thread, rd)
  {
    var h := Self(d);
    NotTheLast(d, t);
    e := WaitReturn(d).s;
    var c := Outside(d.tcb[h]).(cancelReq := false);
    assert e == ExitSelf(Marked(d, h, c), CANCELED);
    WrittenTwice(d.tcb, h, c, c.(state := Exit, joinArg := CANCELED));
    WrittenQuietly(d.tcb, e.tcb, h);
    if CanLose(e, Thread, rd) {
      CallStep(d, DoReturn, e, rd);
    }
  }

  lemma WrittenQuietly(a: map<Tid, Tcb>, b: map<Tid, Tcb>, h: Tid)
    requires h in b && b == a[h := b[h]]
    ensures AllQuiet(a, b, h)
  {
  }

  /** Any other thread may end of its own accord. */
  lemma EndsByChoice(d: Sched, t: Tid, rd: Round) returns (e: Sched)
    requires Inv(d) && d.running && !Doomed(d.tcb[Self(d)]) && Self(d) != t && t in Alive(d.tcb)
    ensures Inv(e) && !e.running && e.current == d.current && Exiting(d.tcb, e.tcb, Self(d))
    ensures CanLose(e, Thread, rd) ==> CanLose(d, Thread, rd)
  {
    var h := Self(d);
    var m := OutOfCall(d, rd);
    assert Quiet(d.tcb, m.tcb, t);
    NotTheLast(m, t);
    e := ExitSelf(m, 0);
    QuietThenExit(d.tcb, m.tcb, e.tcb, h);
    if CanLose(e, Thread, rd) {
      CallStep(m, DoExit(0, true), e, rd);
    }
  }

  lemma QuietThenExit(a: map<Tid, Tcb>, m: map<Tid, Tcb>, e: map<Tid, Tcb>, h: Tid)
    requires h in a && h in m && m[h] == Outside(a[h]) && AllQuiet(a, m, h) && h in e && e == m[h := e[h]]
    ensures AllQuiet(a, e, h)
  {
    forall u | u != h ensures Quiet(a, e, u) {
      assert Quiet(a, m, u);
    }
  }

  lemma SettledHasEnded(a: map<Tid, Tcb>, e: map<Tid, Tcb>, b: map<Tid, Tcb>, h: Tid)
    requires Exiting(a, e, h) && b == SettledTcb(e, h)
    requires forall u | u in e && e[u].waited :: e[u].state == Waiting
    ensures HasEnded(a, b, h)
  {
    forall u | u != h ensures Stays(a, b, u, h) {
      assert Quiet(a, e, u);
    }
  }

  lemma WaitedWait(s: Sched)
    requires Inv(s)
    ensures forall u | u in s.tcb && s.tcb[u].waited :: s.tcb[u].state == Waiting
  {
    forall u | u in s.tcb && s.tcb[u].waited ensures s.tcb[u].state == Waiting {
      assert StateFits(s.tcb[u], s.running);
    }
  }

  /** The record of an ended thread is lost only to the round. */
  lemma LostIsEarly(a: map<Tid, Tcb>, e: Sched, h: Tid, rd: Round, t: Tid, j: Tid)
    requires Hunt(a, rd, t, j) && Exiting(a, e.tcb, h) && h != t && a[h].state == Ready
    requires !e.running && e.current == Some(h) && !JoinerLive(e)
    ensures LostTo(e, rd)
  {
    var i := e.tcb[h].joinedThread.value;
    assert i != h ==> Quiet(a, e.tcb, i);
    assert Quiet(a, e.tcb, t);
  }

  /** The thread that has control ends: the run is lost there, or goes on without it. */
  lemma EndTurn(d: Sched, rd: Round, t: Tid, j: Tid) returns (lost: bool, r: Sched)
    requires Inv(d) && d.running && Hunt(d.tcb, rd, t, j) && Self(d) != t
    ensures lost ==> CanLose(d, Thread, rd)
    ensures !lost ==> Inv(r) && AtRest(r) && HasEnded(d.tcb, r.tcb, Self(d)) && Hunt(r.tcb, rd, t, j)
    ensures !lost ==> Alive(r.tcb) == Alive(d.tcb) - {Self(d)} && (CanLose(r, Top, rd) ==> CanLose(d, Thread, rd))
  {
    var e := GoesToExit(d, t, rd);
    assert StateFits(d.tcb[Self(d)], true);
    lost, r := !JoinerLive(e), e;
    if lost {
      LostIsEarly(d.tcb, e, Self(d), rd, t, j);
      Now(e, Thread, rd);
    } else {
      r := Reap(d.tcb, e, Self(d), rd, t, j);
    }
  }

  lemma GoesToExit(d: Sched, t: Tid, rd: Round) returns (e: Sched)
    requires Inv(d) && d.running && MainStays(d.tcb) && Self(d) != t && t in Alive(d.tcb)
    ensures Inv(e) && !e.running && e.current == d.current && Exiting(d.tcb, e.tcb, Self(d))
    ensures CanLose(e, Thread, rd) ==> CanLose(d, Thread, rd)
  {
    DeadIsQueued(d, Self(d));
    if Doomed(d.tcb[Self(d)]) {
      e := EndsAtPoint(d, t, rd);
    } else {
      e := EndsByChoice(d, t, rd);
    }
  }

  lemma Reap(a: map<Tid, Tcb>, e: Sched, h: Tid, rd: Round, t: Tid, j: Tid) returns (r: Sched)
    requires Inv(e) && !e.running && e.current == Some(h) && JoinerLive(e)
    requires Hunt(a, rd, t, j) && Exiting(a, e.tcb, h) && h != t && a[h].state == Ready
    ensures Inv(r) && AtRest(r) && HasEnded(a, r.tcb, h) && Hunt(r.tcb, rd, t, j) && Alive(r.tcb) == Alive(a) - {h}
    ensures CanLose(r, Top, rd) ==> CanLose(e, Thread, rd)
  {
    WaitedWait(e);
    r := SettleTo(e, rd);
    SettledHunt(a, e.tcb, r.tcb, h, rd, t, j);
  }

  lemma SettleTo(e: Sched, rd: Round) returns (r: Sched)
    requires Inv(e) && !e.running && e.current.Some? && JoinerLive(e)
    ensures Inv(r) && AtRest(r) && r.tcb == SettledTcb(e.tcb, e.current.value)
    ensures Unheard(r.tcb) && CanLose(r, Top, rd) ==> CanLose(e, Thread, rd)
  {
    r := Settle(e);
    if Unheard(r.tcb) && CanLose(r, Top, rd) {
      SettleStep(e, r, rd);
    }
  }

  lemma SettledHunt(a: map<Tid, Tcb>, e: map<Tid, Tcb>, b: map<Tid, Tcb>, h: Tid, rd: Round, t: Tid, j: Tid)
    requires Hunt(a, rd, t, j) && Exiting(a, e, h) && h != t && a[h].state == Ready && b == SettledTcb(e, h)
    requires forall u | u in e && e[u].waited :: e[u].state == Waiting
    ensures HasEnded(a, b, h) && Hunt(b, rd, t, j) && Alive(b) == Alive(a) - {h}
  {
    SettledHasEnded(a, e, b, h);
    HuntAfterEnd(a, b, h, rd, t, j);
  }

  /** A thread that waits for something of no concern. */
  function Resting(c: Tcb): Tcb {
    Outside(c).(state := Waiting, place := WQ, waited := true)
  }

  /** The target has control and goes to sleep again. */
  lemma TargetRests(d: Sched, rd: Round, t: Tid, j: Tid) returns (r: Sched)
    requires Inv(d) && d.running && d.current == Some(t) && Hunt(d.tcb, rd, t, j)
    ensures Inv(r) && AtRest(r) && Hunt(r.tcb, rd, t, j) && Alive(r.tcb) == Alive(d.tcb)
    ensures r.tcb[t] == Resting(d.tcb[t]) && AllQuiet(d.tcb, r.tcb, t)
    ensures CanLose(r, Top, rd) ==> CanLose(d, Thread, rd)
  {
    var m := OutOfCall(d, rd);
    var b := Block(m, false);
    assert JoinerLive(b);
    r := Settle(b);
    RestedTcb(d.tcb, m.tcb, b.tcb, r.tcb, t);
    HuntSteady(d.tcb, r.tcb, t, rd, t, j);
    if CanLose(r, Top, rd) {
      SettleStep(b, r, rd);
      CallStep(m, DoWait(false), b, rd);
    }
  }

  lemma RestedTcb(a: map<Tid, Tcb>, m: map<Tid, Tcb>, b: map<Tid, Tcb>, r: map<Tid, Tcb>, h: Tid)
    requires h in a && h in m && m[h] == Outside(a[h]) && AllQuiet(a, m, h)
    requires b == m[h := m[h].(state := Waiting, atPoint := false)] && r == b[h := b[h].(place := WQ, waited := true)]
    ensures r[h] == Resting(a[h]) && AllQuiet(a, r, h)
  {
    forall u | u != h ensures Quiet(a, r, u) {
      assert Quiet(a, m, u);
    }
  }
}
