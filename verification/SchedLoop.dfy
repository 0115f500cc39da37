/**
 The two loops of the scheduler that move threads between queues while they
 walk them, changing queues and control blocks in place.
 */
module SchedLoop {
  import opened Basics
  import opened SchedQueue
  import opened Sched
  import opened SchedOps

  class Scheduler {
    var nq: Queue
    var rq: Queue
    var wq: Queue
    var sq: Queue
    var dq: Queue
    var current: Option<Tid>
    var running: bool
    var tcb: map<Tid, Tcb>
    var count: int

    ghost function State(): Sched
      reads this
    {
      Sched(nq, rq, wq, sq, dq, current, running, tcb, count)
    }

    /** Threads go from the new queue to the front of the ready queue until none is new. */
    method PromoteNew()
      requires Inv(State())
      modifies this`nq, this`rq, this`tcb
      ensures State() == Promote(old(State()))
    {
      while nq != []
        invariant Inv(State()) && Promote(State()) == Promote(old(State()))
        decreases |nq|
      {
        ghost var next := PromoteOne(State());
        PromoteHead();
        assert State() == next;
      }
    }

    method PromoteHead()
      requires nq != [] && nq[0].item in tcb
      modifies this`nq, this`rq, this`tcb
      ensures Holds(old(nq), old(nq)[0].item)
      ensures var s := old(State()); var t := s.nq[0].item; var c := s.tcb[t].(state := Ready, place := RQ);
        State() == s.(nq := Delete(s.nq, t), rq := PrependSecond(s.rq, c.eprio, t), tcb := s.tcb[t := c])
    {
      var t := nq[0].item;
      nq := Delete(nq, t);
      var c := tcb[t].(state := Ready);
      rq := PrependSecond(rq, c.eprio, t);
      tcb := tcb[t := c.(place := RQ)];
    }

    /** One walk of the event manager over the wait queue, taking threads out while walking. */
    method ScanEvents(occurred: set<Tid>)
      requires Inv(State())
      modifies this`rq, this`wq, this`tcb
      ensures State() == Events(old(State()), old(wq), occurred)
    {
      var i := 0;
      ghost var todo := wq;
      ghost var end := Events(State(), wq, occurred);
      while i < |wq|
        invariant Inv(State()) && 0 <= i <= |wq| && wq[i..] == todo && Events(State(), todo, occurred) == end
        decreases |wq| - i
      {
        i := ScanStep(i, todo, occurred);
        todo := todo[1..];
      }
    }

    method ScanStep(i: nat, ghost todo: Queue, occurred: set<Tid>) returns (next: nat)
      requires Inv(State()) && i < |wq| && wq[i..] == todo
      modifies this`rq, this`wq, this`tcb
      ensures Inv(State()) && next <= |wq| && |wq| - next == |old(wq)| - i - 1 && wq[next..] == todo[1..]
      ensures Events(State(), todo[1..], occurred) == Events(old(State()), todo, occurred)
    {
      NextWalk(State(), i, todo, occurred);
      next := ScanOne(i, occurred);
    }

    method ScanOne(i: nat, occurred: set<Tid>) returns (next: nat)
      requires CanPass(State(), i)
      modifies this`rq, this`wq, this`tcb
      ensures State() == Passed(old(State()), i, occurred) && next == NextAt(old(State()), i, occurred)
    {
      var t := wq[i].item;
      if t in occurred {
        wq := Delete(wq, t);
        var c := tcb[t].(waited := false);
        c := c.(state := Ready);
        c := c.(eprio := c.prio);
        rq := Append(rq, c.eprio, t);
        tcb := tcb[t := c.(place := RQ)];
        next := i;
      } else {
        next := i + 1;
      }
    }
  }

  predicate CanPass(s: Sched, i: nat) {
    i < |s.wq| && var t := s.wq[i].item; InPlace(s, t) && s.tcb[t].place == WQ && s.current != Some(t)
  }

  /** The thread at position i is woken, or left alone. */
  function Passed(s: Sched, i: nat, occurred: set<Tid>): Sched
    requires CanPass(s, i)
  {
    var t := s.wq[i].item;
    if t in occurred then Moved(s, t, Woken(s.tcb[t]), s.running) else s
  }

  /** Where the walk goes on. */
  function NextAt(s: Sched, i: nat, occurred: set<Tid>): nat
    requires CanPass(s, i)
  {
    if s.wq[i].item in occurred then i else i + 1
  }

  lemma PassIs(s: Sched, i: nat, occurred: set<Tid>)
    requires Inv(s) && i < |s.wq|
    ensures CanPass(s, i) && Passed(s, i, occurred) == EventOne(s, s.wq[i].item, occurred)
  {
    assert FitsEntry(s.tcb, s.wq[i], WQ);
    QueuedInPlace(s, s.wq[i].item);
  }

  lemma RestOfWalk(s: Sched, i: nat, occurred: set<Tid>)
    requires CanPass(s, i) && GoodQueue(s.wq)
    ensures var r := Passed(s, i, occurred); var n := NextAt(s, i, occurred);
      n <= |r.wq| && |r.wq| - n == |s.wq| - i - 1 && r.wq[n..] == s.wq[i + 1..]
  {
    RemovesAt(s.wq, i);
  }

  /** Taking the thread under the walk out, or passing it, leaves the rest of the walk as it was. */
  lemma NextWalk(s: Sched, i: nat, todo: Queue, occurred: set<Tid>)
    requires Inv(s) && i < |s.wq| && s.wq[i..] == todo
    ensures CanPass(s, i)
    ensures var r := Passed(s, i, occurred); var n := NextAt(s, i, occurred);
      && Inv(r) && n <= |r.wq| && |r.wq| - n == |s.wq| - i - 1
      && r.wq[n..] == todo[1..] && Events(s, todo, occurred) == Events(r, todo[1..], occurred)
  {
    PassIs(s, i, occurred);
    RestOfWalk(s, i, occurred);
    assert Events(s, todo, occurred) == Events(EventOne(s, todo[0].item, occurred), todo[1..], occurred);
  }

  lemma RemovesAt(q: Queue, i: nat)
    requires GoodQueue(q) && i < |q|
    ensures q[i].item in Items(q) && IndexOf(q, q[i].item) == i
    ensures |Delete(q, q[i].item)| == |q| - 1 && Delete(q, q[i].item)[i..] == q[i + 1..]
  {
    assert q[IndexOf(q, q[i].item)].item == q[i].item;
  }
}
