/**
 The run queues of pqueue.h as the scheduler sees them: threads in walking
 order, highest effective priority first, one list per priority.
 */
module SchedQueue {
  import opened Basics
  import opened PriorityList

  type Queue = seq<Entry<Tid>>

  ghost function Items(q: Queue): set<Tid> {
    set i | 0 <= i < |q| :: q[i].item
  }

  ghost predicate GoodQueue(q: Queue) {
    NoDuplicates(q) && Sorted(q)
  }

  predicate Holds(q: Queue, t: Tid)
    ensures Holds(q, t) <==> t in Items(q)
  {
    exists i | 0 <= i < |q| :: q[i].item == t
  }

  lemma InsertAtItems(q: Queue, k: nat, e: Entry<Tid>)
    requires k <= |q|
    ensures Items(InsertAt(q, k, e)) == Items(q) + {e.item}
    ensures forall x | x in InsertAt(q, k, e) :: x == e || x in q
    ensures NoDuplicates(q) && e.item !in Items(q) ==> NoDuplicates(InsertAt(q, k, e))
  {
    var r := InsertAt(q, k, e);
    assert r[k].item == e.item;
    forall t | t in Items(q) ensures t in Items(r) {
      var i :| 0 <= i < |q| && q[i].item == t;
      assert r[if i < k then i else i + 1].item == t;
    }
    forall t | t in Items(r) && t != e.item ensures t in Items(q) {
      var i :| 0 <= i < |r| && r[i].item == t;
      assert q[if i < k then i else i - 1].item == t;
    }
  }

  /** Behind every thread of at least the same priority. */
  function Append(q: Queue, p: int, t: Tid): (r: Queue)
    ensures Items(r) == Items(q) + {t}
    ensures forall x | x in r :: x == Entry(t, p) || x in q
    ensures GoodQueue(q) && t !in Items(q) ==> GoodQueue(r)
  {
    InsertAtItems(q, InsertPos(q, p), Entry(t, p));
    assert Sorted(q) ==> Sorted(Insert(q, p, t)) by {
      if Sorted(q) { InsertKeepsSorted(q, p, t); }
    }
    Insert(q, p, t)
  }

  /** Second in the list of its priority, or first when that list is empty. */
  function PrependSecond(q: Queue, p: int, t: Tid): (r: Queue)
    ensures Items(r) == Items(q) + {t}
    ensures forall x | x in r :: x == Entry(t, p) || x in q
    ensures GoodQueue(q) && t !in Items(q) ==> GoodQueue(r)
  {
    var k := InsertPos(q, p + 1);
    var at := if k < |q| && q[k].prio == p then k + 1 else k;
    InsertAtItems(q, at, Entry(t, p));
    assert Sorted(q) ==> Sorted(InsertAt(q, at, Entry(t, p))) by {
      if Sorted(q) { InsertAtKeepsSorted(q, at, Entry(t, p)); }
    }
    InsertAt(q, at, Entry(t, p))
  }

  function IndexOf(q: Queue, t: Tid): (i: nat)
    requires t in Items(q)
    ensures i < |q| && q[i].item == t
  {
    if q[0].item == t then
      0
    else
      assert q[1..] != [] && t in Items(q[1..]) by {
        var j :| 0 <= j < |q| && q[j].item == t;
        assert q[1..][j - 1].item == t;
      }
      1 + IndexOf(q[1..], t)
  }

  function Delete(q: Queue, t: Tid): (r: Queue)
    requires t in Items(q)
    ensures Items(q) == Items(r) + {t}
    ensures forall x | x in r :: x in q
    ensures GoodQueue(q) ==> GoodQueue(r) && Items(r) == Items(q) - {t}
  {
    var k := IndexOf(q, t);
    var r := RemoveAt(q, k);
    assert Items(q) == Items(r) + {t} by {
      forall x | x in Items(q) && x != t ensures x in Items(r) {
        var i :| 0 <= i < |q| && q[i].item == x;
        assert r[if i < k then i else i - 1].item == x;
      }
      assert forall i | 0 <= i < |r| :: r[i] == q[if i < k then i else i + 1];
    }
    assert NoDuplicates(q) ==> t !in Items(r);
    r
  }

  /** Among the first two of the list of its priority. */
  predicate Near(q: Queue, t: Tid)
    requires t in Items(q)
  {
    IndexOf(q, t) <= InsertPos(q, q[IndexOf(q, t)].prio + 1) + 1
  }

  /** Taken out and put back as the second of the list of its priority, unless it is there or first. */
  function Favor(q: Queue, t: Tid): (r: Queue)
    requires t in Items(q)
    ensures GoodQueue(q) ==> GoodQueue(r) && Items(r) == Items(q)
    ensures forall x | x in r :: x in q
  {
    if Near(q, t) then q else PrependSecond(Delete(q, t), q[IndexOf(q, t)].prio, t)
  }

  lemma FirstOfPriority(q: Queue, i: nat)
    requires Sorted(q) && i < |q|
    ensures InsertPos(q, q[i].prio + 1) <= i
    ensures q[InsertPos(q, q[i].prio + 1)].prio == q[i].prio
  {
  }

  lemma FirstWithout(q: Queue, i: nat, first: nat)
    requires first < i < |q| && first == InsertPos(q, q[i].prio + 1) && q[first].prio == q[i].prio
    ensures InsertPos(RemoveAt(q, i), q[i].prio + 1) == first && RemoveAt(q, i)[first].prio == q[i].prio
  {
    InsertPosUnique(RemoveAt(q, i), q[i].prio + 1, first);
  }

  lemma SecondAfter(q: Queue, e: Entry<Tid>, first: nat)
    requires first < |q| && first == InsertPos(q, e.prio + 1) && q[first].prio == e.prio
    ensures PrependSecond(q, e.prio, e.item) == InsertAt(q, first + 1, e)
  {
  }

  /** The favoured thread ends up first or second among those of its priority; the others keep their order. */
  lemma FavorIsNear(q: Queue, t: Tid) returns (k: nat)
    requires GoodQueue(q) && t in Items(q)
    ensures var r := Favor(q, t);
      && k < |r| && r[k] == q[IndexOf(q, t)] && RemoveAt(r, k) == RemoveAt(q, IndexOf(q, t))
      && (k >= 2 ==> r[k - 2].prio > r[k].prio)
  {
    var i := IndexOf(q, t);
    var first := InsertPos(q, q[i].prio + 1);
    FirstOfPriority(q, i);
    if Near(q, t) {
      k := i;
    } else {
      k := first + 1;
      FirstWithout(q, i, first);
      SecondAfter(RemoveAt(q, i), q[i], first);
      TakeOutPutIn(RemoveAt(q, i), k, q[i]);
    }
  }

  lemma TakeOutPutIn(d: Queue, k: nat, e: Entry<Tid>)
    requires k <= |d|
    ensures RemoveAt(InsertAt(d, k, e), k) == d
  {
  }
}
